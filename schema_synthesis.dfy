/** `to_json_schema` of singertools/infer_schema.py: turn an observation
    tree into a JSON-Schema fragment.

    The source builds a fresh `result` by visiting the tree's keys in
    insertion order; `SchemaFrom(obs, n)` is `result` after the first `n`
    turns of that loop. */
module SchemaSynthesis {
  import opened Wrappers
  import opened JsonValues
  import opened ObservationTree
  import opened InferSchema

  /** A fragment `{type, properties?, items?, format?}`. */
  datatype Schema = Schema(types: seq<string>, properties: Option<Props>, items: Option<Schema>, format: Option<string>)

  /** The `properties` dict: field names in insertion order and their schemas. */
  datatype Props = Props(names: seq<string>, schemas: map<string, Schema>)

  /** `{'type': ['null']}`. */
  const Initial: Schema := Schema(["null"], None, None, None)

  predicate IsKind(k: string)
  {
    IsTerminal(k) || k == "object" || k == "array"
  }

  function ToJsonSchema(obs: Obs): Result<Schema, Error>
    requires Valid(obs)
    decreases obs, 1, 0
  {
    if obs.Seen? then Err(NotADict)   // `for key in True`
    else SchemaFrom(obs, |obs.keys|)
  }

  function SchemaFrom(obs: Obs, n: nat): Result<Schema, Error>
    requires Valid(obs) && obs.Node? && n <= |obs.keys|
    decreases obs, 0, n
  {
    if n == 0 then Ok(Initial)
    else
      var acc :- SchemaFrom(obs, n - 1);
      var key := obs.keys[n - 1];
      assert key in obs.children;
      if key == "object" then
        var fields := obs.children[key];
        if fields.Seen? then Err(NotADict)   // `for obj_key in True`
        else if acc.properties.Some? then Ok(acc.(types := acc.types + ["object"]))
        else
          var props :- PropsFrom(fields, |fields.keys|);
          Ok(acc.(types := acc.types + ["object"], properties := Some(props)))
      else if key == "array" then
        var items :- ToJsonSchema(obs.children[key]);
        Ok(acc.(types := acc.types + ["array"], items := Some(items)))
      else if key == "date" then
        Ok(acc.(types := acc.types + ["string"], format := Some("date-time")))
      else if key == "string" then
        Ok(acc.(types := acc.types + ["string"]))
      else if key == "boolean" then
        Ok(acc.(types := acc.types + ["boolean"]))
      else if key == "integer" then
        Ok(acc.(types := acc.types + ["integer"]))
      else if key == "number" then
        Ok(acc.(types := acc.types + ["string"], format := Some("singer.decimal")))
      else if key == "null" then
        Ok(acc)
      else
        Err(UnexpectedDataType(key))
  }

  /** The `properties` dict after the first `n` turns of `for obj_key in obs['object']`. */
  function PropsFrom(fields: Obs, n: nat): Result<Props, Error>
    requires Valid(fields) && fields.Node? && n <= |fields.keys|
    decreases fields, 0, n
  {
    if n == 0 then Ok(Props([], map[]))
    else
      var props :- PropsFrom(fields, n - 1);
      var name := fields.keys[n - 1];
      assert name in fields.children;
      var s :- ToJsonSchema(fields.children[name]);
      Ok(Props(props.names + [name], props.schemas[name := s]))
  }

  // ---------------------------------------------------------------------
  // Reference descriptions of the fragment's fields

  /** The JSON-Schema type a kind contributes. */
  function TypeName(k: string): string
  {
    if k == "date" || k == "number" then "string" else k
  }

  /** One type per key other than `null`, in key order, without removing
      repeats. */
  function EmittedTypes(keys: seq<string>): seq<string>
  {
    if keys == [] then []
    else (if keys[0] == "null" then [] else [TypeName(keys[0])]) + EmittedTypes(keys[1..])
  }

  /** The format set by the last `date` or `number` key, if any. */
  function LastFormat(keys: seq<string>): Option<string>
  {
    if keys == [] then None
    else
      var k := keys[|keys| - 1];
      if k == "date" then Some("date-time")
      else if k == "number" then Some("singer.decimal")
      else LastFormat(keys[..|keys| - 1])
  }

  lemma {:induction false} EmittedTypesAppend(keys: seq<string>, k: string)
    ensures EmittedTypes(keys + [k]) == EmittedTypes(keys) + (if k == "null" then [] else [TypeName(k)])
  {
    if keys != [] {
      assert (keys + [k])[1..] == keys[1..] + [k];
      EmittedTypesAppend(keys[1..], k);
    }
  }

  /** What `to_json_schema` returns when it succeeds: every key was a known
      kind; `type` is `'null'` followed by one entry per other key in key
      order (so `date` and `string` together give `'string'` twice);
      `properties` is present exactly when `object` is a key and maps each
      field of `obs['object']`, in its order, to that field's schema; `items`
      is present exactly when `array` is a key and is the schema of
      `obs['array']`; `format` comes from the last `date` or `number` key. */
  lemma SchemaShape(obs: Obs)
    requires Valid(obs) && ToJsonSchema(obs).Ok?
    ensures obs.Node?
    ensures forall k | k in obs.keys :: IsKind(k)
    ensures ToJsonSchema(obs).value.types == ["null"] + EmittedTypes(obs.keys)
    ensures ToJsonSchema(obs).value.properties.Some? <==> "object" in obs.children
    ensures "object" in obs.children ==>
      var fields := obs.children["object"];
      var props := ToJsonSchema(obs).value.properties.value;
      && fields.Node? && Valid(fields)
      && props.names == fields.keys
      && props.schemas.Keys == fields.children.Keys
      && forall k | k in fields.children ::
           Valid(fields.children[k]) && ToJsonSchema(fields.children[k]) == Ok(props.schemas[k])
    ensures ToJsonSchema(obs).value.items.Some? <==> "array" in obs.children
    ensures "array" in obs.children ==>
      ToJsonSchema(obs.children["array"]) == Ok(ToJsonSchema(obs).value.items.value)
    ensures ToJsonSchema(obs).value.format == LastFormat(obs.keys)
  {
    var n := |obs.keys|;
    assert obs.keys[..n] == obs.keys;
    SchemaFromTypes(obs, n);
    SchemaFromProperties(obs, n);
    SchemaFromItems(obs, n);
    SchemaFromFormat(obs, n);
    if "object" in obs.children {
      var fields := obs.children["object"];
      PropsFromShape(fields, |fields.keys|);
      assert fields.keys[..|fields.keys|] == fields.keys;
    }
  }

  lemma {:induction false} SchemaFromTypes(obs: Obs, n: nat)
    requires Valid(obs) && obs.Node? && n <= |obs.keys|
    requires SchemaFrom(obs, n).Ok?
    ensures forall i | 0 <= i < n :: IsKind(obs.keys[i])
    ensures SchemaFrom(obs, n).value.types == ["null"] + EmittedTypes(obs.keys[..n])
    decreases n
  {
    if n > 0 {
      SchemaFromTypes(obs, n - 1);
      SchemaStepTypes(obs, n);
      assert obs.keys[..n] == obs.keys[..n - 1] + [obs.keys[n - 1]];
      EmittedTypesAppend(obs.keys[..n - 1], obs.keys[n - 1]);
    }
  }

  lemma SchemaStepTypes(obs: Obs, n: nat)
    requires Valid(obs) && obs.Node? && 0 < n <= |obs.keys|
    requires SchemaFrom(obs, n).Ok?
    ensures SchemaFrom(obs, n - 1).Ok?
    ensures IsKind(obs.keys[n - 1])
    ensures var k := obs.keys[n - 1];
      SchemaFrom(obs, n).value.types ==
        SchemaFrom(obs, n - 1).value.types + (if k == "null" then [] else [TypeName(k)])
  {
  }

  lemma {:induction false} SchemaFromProperties(obs: Obs, n: nat)
    requires Valid(obs) && obs.Node? && n <= |obs.keys|
    requires SchemaFrom(obs, n).Ok?
    ensures SchemaFrom(obs, n).value.properties.Some? <==> "object" in obs.keys[..n]
    ensures "object" in obs.keys[..n] ==>
      var fields := obs.children["object"];
      fields.Node? && Valid(fields) && PropsFrom(fields, |fields.keys|) == Ok(SchemaFrom(obs, n).value.properties.value)
    decreases n
  {
    if n > 0 {
      SchemaFromProperties(obs, n - 1);
      var key := obs.keys[n - 1];
      assert obs.keys[..n] == obs.keys[..n - 1] + [key];
      assert key !in obs.keys[..n - 1] by {
        assert forall i | 0 <= i < n - 1 :: obs.keys[i] != key;
      }
    }
  }

  lemma {:induction false} SchemaFromItems(obs: Obs, n: nat)
    requires Valid(obs) && obs.Node? && n <= |obs.keys|
    requires SchemaFrom(obs, n).Ok?
    ensures SchemaFrom(obs, n).value.items.Some? <==> "array" in obs.keys[..n]
    ensures "array" in obs.keys[..n] ==>
      ToJsonSchema(obs.children["array"]) == Ok(SchemaFrom(obs, n).value.items.value)
    decreases n
  {
    if n > 0 {
      SchemaFromItems(obs, n - 1);
      var key := obs.keys[n - 1];
      assert obs.keys[..n] == obs.keys[..n - 1] + [key];
      assert key !in obs.keys[..n - 1] by {
        assert forall i | 0 <= i < n - 1 :: obs.keys[i] != key;
      }
      var prev := SchemaFrom(obs, n - 1);
      assert prev.Ok?;
      if key == "array" {
        assert SchemaFrom(obs, n).value.items == Some(ToJsonSchema(obs.children["array"]).value);
      } else {
        assert SchemaFrom(obs, n).value.items == prev.value.items;
      }
    }
  }

  lemma {:induction false} SchemaFromFormat(obs: Obs, n: nat)
    requires Valid(obs) && obs.Node? && n <= |obs.keys|
    requires SchemaFrom(obs, n).Ok?
    ensures SchemaFrom(obs, n).value.format == LastFormat(obs.keys[..n])
    decreases n
  {
    if n > 0 {
      SchemaFromFormat(obs, n - 1);
      assert obs.keys[..n][..n - 1] == obs.keys[..n - 1];
    }
  }

  lemma {:induction false} PropsFromShape(fields: Obs, n: nat)
    requires Valid(fields) && fields.Node? && n <= |fields.keys|
    requires PropsFrom(fields, n).Ok?
    ensures var props := PropsFrom(fields, n).value;
      && props.names == fields.keys[..n]
      && props.schemas.Keys == set k | k in fields.keys[..n]
      && forall k | k in fields.children && k in props.schemas ::
           Valid(fields.children[k]) && ToJsonSchema(fields.children[k]) == Ok(props.schemas[k])
    decreases n
  {
    if n > 0 {
      PropsFromShape(fields, n - 1);
      assert fields.keys[..n] == fields.keys[..n - 1] + [fields.keys[n - 1]];
    }
  }

  /** A key that is no kind makes `to_json_schema` raise. */
  lemma UnknownKeyRaises(obs: Obs, k: string)
    requires Valid(obs) && obs.Node? && k in obs.keys && !IsKind(k)
    ensures ToJsonSchema(obs).Err?
  {
    if ToJsonSchema(obs).Ok? {
      SchemaShape(obs);
    }
  }

  /** `to_json_schema` never raises on a tree add_observations built. */
  lemma {:induction false} SchemaOfWellFormed(obs: Obs)
    requires Valid(obs) && WfKinds(obs)
    ensures ToJsonSchema(obs).Ok?
    decreases obs, 1
  {
    SchemaFromOk(obs, |obs.keys|);
  }

  lemma {:induction false} SchemaFromOk(obs: Obs, n: nat)
    requires Valid(obs) && WfKinds(obs) && n <= |obs.keys|
    ensures SchemaFrom(obs, n).Ok?
    decreases obs, 0, n
  {
    if n > 0 {
      SchemaFromOk(obs, n - 1);
      var key := obs.keys[n - 1];
      assert key in obs.children;
      if key == "object" {
        var fields := obs.children[key];
        assert WfFields(fields);
        PropsFromOk(fields, |fields.keys|);
      } else if key == "array" {
        SchemaOfWellFormed(obs.children[key]);
      }
    }
  }

  lemma {:induction false} PropsFromOk(fields: Obs, n: nat)
    requires Valid(fields) && WfFields(fields) && n <= |fields.keys|
    ensures PropsFrom(fields, n).Ok?
    decreases fields, 0, n
  {
    if n > 0 {
      PropsFromOk(fields, n - 1);
      var name := fields.keys[n - 1];
      assert name in fields.children;
      SchemaOfWellFormed(fields.children[name]);
    }
  }

  // ---------------------------------------------------------------------
  // Worked cases

  /** A value seen once as an ISO date-time and once as plain text leaves
      both kinds under one path, in the order they were seen. */
  lemma DateThenStringTree(d: string, text: string, isDate: string -> bool)
    requires isDate(d) && !isDate(text)
    ensures ObserveRecords(Empty, [JStr(d), JStr(text)], isDate)
      == Ok(Node(["date", "string"], map["date" := Seen, "string" := Seen]))
  {
    var t1 := Node(["date"], map["date" := Seen]);
    var t2 := Node(["date", "string"], map["date" := Seen, "string" := Seen]);
    assert [JStr(d), JStr(text)][..1] == [JStr(d)];
    assert [JStr(d)][..0] == [];
    assert Observe(Empty, [], JStr(d), isDate) == Ok(t1) by {
      assert [] + ["date"] == ["date"];
      assert Put(Empty, "date", Seen) == t1;
    }
    assert ObserveRecords(Empty, [JStr(d)], isDate) == Ok(t1);
    assert Observe(t1, [], JStr(text), isDate) == Ok(t2) by {
      assert [] + ["string"] == ["string"];
      assert Put(t1, "string", Seen) == t2;
    }
  }

  /** The schema of that tree has `'string'` twice in its type list: the
      source does not deduplicate. */
  lemma DateAndStringRepeatString()
    ensures ToJsonSchema(Node(["date", "string"], map["date" := Seen, "string" := Seen]))
      == Ok(Schema(["null", "string", "string"], None, None, Some("date-time")))
  {
    var t2 := Node(["date", "string"], map["date" := Seen, "string" := Seen]);
    assert Valid(t2) && WfKinds(t2);
    SchemaOfWellFormed(t2);
    SchemaShape(t2);
    var sc := ToJsonSchema(t2).value;
    assert sc.properties == None;
    assert sc.items == None;
    assert t2.keys[1..] == ["string"];
    assert ["string"][1..] == [];
    assert EmittedTypes(t2.keys) == ["string", "string"];
    assert t2.keys[..1] == ["date"];
    assert LastFormat(t2.keys) == Some("date-time");
    assert sc.types == ["null", "string", "string"];
    assert sc.format == Some("date-time");
  }

  /** `format` is last-write-wins, so a field's schema depends on the order of
      the records even though the trees are equal as Python compares them: a
      number then a date-time gives `date-time`, the reverse gives
      `singer.decimal`. */
  lemma FormatDependsOnRecordOrder(d: string, x: real, isDate: string -> bool)
    requires isDate(d)
    ensures ObserveRecords(Empty, [JObj([("x", JFloat(x))]), JObj([("x", JStr(d))])], isDate)
      == Ok(OneField(Pair("number", "date")))
    ensures ObserveRecords(Empty, [JObj([("x", JStr(d))]), JObj([("x", JFloat(x))])], isDate)
      == Ok(OneField(Pair("date", "number")))
    ensures Same(OneField(Pair("number", "date")), OneField(Pair("date", "number")))
    ensures Valid(OneField(Pair("number", "date"))) && Valid(OneField(Pair("date", "number")))
    ensures FieldFormat(OneField(Pair("number", "date")), "x") == Some("date-time")
    ensures FieldFormat(OneField(Pair("date", "number")), "x") == Some("singer.decimal")
  {
    TwoRecordsTree(JFloat(x), JStr(d), isDate);
    TwoRecordsTree(JStr(d), JFloat(x), isDate);
    PairSame("number", "date");
    PairFormat("number", "date");
    PairFormat("date", "number");
  }

  /** The kind-map holding the two kinds `k1` then `k2`. */
  function Pair(k1: string, k2: string): Obs
  {
    Node([k1, k2], map[k1 := Seen][k2 := Seen])
  }

  lemma PairSame(k1: string, k2: string)
    ensures Same(OneField(Pair(k1, k2)), OneField(Pair(k2, k1)))
  {
    var p, q := Pair(k1, k2), Pair(k2, k1);
    assert p.children == q.children;
    SameEntries(p, q);
    var px, qx := Node(["x"], map["x" := p]), Node(["x"], map["x" := q]);
    assert Same(px, qx) by {
      assert forall k | k in px.children :: k == "x";
    }
    assert OneField(p).children["object"] == px;
    assert Same(OneField(p), OneField(q)) by {
      assert forall k | k in OneField(p).children :: k == "object";
    }
  }

  lemma PairFormat(k1: string, k2: string)
    requires IsTerminal(k1) && IsTerminal(k2) && k1 != k2
    ensures Valid(OneField(Pair(k1, k2)))
    ensures FieldFormat(OneField(Pair(k1, k2)), "x") == LastFormat([k1, k2])
  {
    var p := Pair(k1, k2);
    assert Valid(p) && WfKinds(p);
    assert Valid(OneField(p)) && WfKinds(OneField(p));
    KindsFormat(OneField(p), "x");
  }

  /** Two records `{"x": v1}` and `{"x": v2}` of different kinds leave one
      field whose kinds are listed in the order the records came. */
  lemma TwoRecordsTree(v1: Json, v2: Json, isDate: string -> bool)
    requires IsScalar(v1) && IsScalar(v2) && KindOf(v1, isDate) != KindOf(v2, isDate)
    ensures var k1 := KindOf(v1, isDate);
      var k2 := KindOf(v2, isDate);
      ObserveRecords(Empty, [JObj([("x", v1)]), JObj([("x", v2)])], isDate)
        == Ok(OneField(Pair(k1, k2)))
  {
    var k1, k2 := KindOf(v1, isDate), KindOf(v2, isDate);
    var r1, r2 := JObj([("x", v1)]), JObj([("x", v2)]);
    assert [r1, r2][..1] == [r1];
    assert [r1][..0] == [];
    var one := Node([k1], map[k1 := Seen]);
    FieldStep(Empty, Empty, k1, v1, isDate);
    assert Empty.keys + [k1] == [k1];
    assert Empty.children[k1 := Seen] == map[k1 := Seen];
    assert ObserveRecords(Empty, [r1], isDate) == Ok(OneField(one));
    FieldStep(OneField(one), one, k2, v2, isDate);
    assert [k1] + [k2] == [k1, k2];
  }

  /** The tree of an object with the single field `x` whose kind-map is `kinds`. */
  function OneField(kinds: Obs): Obs
  {
    Node(["object"], map["object" := Node(["x"], map["x" := kinds])])
  }

  /** Observing `{"x": v}` on a tree whose only field is `x` (or on `{}`)
      records the kind of `v` in the kind-map of `x`. */
  lemma FieldStep(t: Obs, kinds: Obs, kind: string, v: Json, isDate: string -> bool)
    requires IsScalar(v) && KindOf(v, isDate) == kind
    requires kinds.Node? && kind !in kinds.children
    requires (t == Empty && kinds == Empty) || t == OneField(kinds)
    ensures Observe(t, [], JObj([("x", v)]), isDate)
      == Ok(OneField(Node(kinds.keys + [kind], kinds.children[kind := Seen])))
  {
    var obj := JObj([("x", v)]);
    var path := ["object", "x", kind];
    assert [] + ["object", "x"] + [kind] == path;
    assert ObserveMembers(t, [], obj, 0, isDate) == Ok(t);
    assert path[1..] == ["x", kind];
    assert path[1..][1..] == [kind];
    var inner := Node(kinds.keys + [kind], kinds.children[kind := Seen]);
    assert AddObservation(kinds, [kind]) == Ok(inner);
    if t == Empty {
      assert AddObservation(Empty, ["x", kind]) == Ok(Node(["x"], map["x" := inner])) by {
        assert Put(Empty, "x", inner) == Node(["x"], map["x" := inner]);
      }
      assert Put(Empty, "object", Node(["x"], map["x" := inner])) == OneField(inner);
    } else {
      var mid := Node(["x"], map["x" := kinds]);
      assert t.children["object"] == mid;
      assert AddObservation(mid, ["x", kind]) == Ok(Node(["x"], map["x" := inner])) by {
        assert mid.children["x"] == kinds;
        assert Put(mid, "x", inner) == Node(["x"], map["x" := inner]);
      }
      assert Put(t, "object", Node(["x"], map["x" := inner])) == OneField(inner);
      assert AddObservation(t, path) == Ok(OneField(inner));
    }
    assert ["object", "x"] + [kind] == path;
    assert Observe(t, ["object", "x"], v, isDate) == AddObservation(t, path);
    assert ObserveMembers(t, [], obj, 1, isDate) == Observe(t, ["object", "x"], v, isDate);
  }

  /** The `format` of field `name` in the schema of `obs`, when there is one. */
  function FieldFormat(obs: Obs, name: string): Option<string>
    requires Valid(obs)
  {
    match ToJsonSchema(obs)
    case Ok(s) =>
      if s.properties.Some? && name in s.properties.value.schemas
      then s.properties.value.schemas[name].format
      else None
    case Err(_) => None
  }

  /** The `format` of any field of an object's schema is the format its own
      kind-map gives: the last of `date` and `number` among its kinds. */
  lemma KindsFormat(t: Obs, name: string)
    requires Valid(t) && WfKinds(t)
    // the two `Node?` conditions follow from `WfKinds`; they make the ensures well defined
    requires "object" in t.children && t.children["object"].Node?
    requires name in t.children["object"].children && t.children["object"].children[name].Node?
    ensures FieldFormat(t, name) == LastFormat(t.children["object"].children[name].keys)
  {
    SchemaOfWellFormed(t);
    SchemaShape(t);
    var kinds := t.children["object"].children[name];
    assert Valid(kinds) && WfKinds(kinds);
    SchemaOfWellFormed(kinds);
    SchemaShape(kinds);
  }

  /** The `type` list of field `name` in the schema of `obs`, when there is one. */
  function FieldTypes(obs: Obs, name: string): Option<seq<string>>
    requires Valid(obs)
  {
    match ToJsonSchema(obs)
    case Ok(s) =>
      if s.properties.Some? && name in s.properties.value.schemas
      then Some(s.properties.value.schemas[name].types)
      else None
    case Err(_) => None
  }

  /** The `type` list of any field of an object's schema is `"null"` followed
      by one type per kind of its kind-map, in the kind-map's order. */
  lemma KindsTypes(t: Obs, name: string)
    requires Valid(t) && WfKinds(t)
    // the two `Node?` conditions follow from `WfKinds`; they make the ensures well defined
    requires "object" in t.children && t.children["object"].Node?
    requires name in t.children["object"].children && t.children["object"].children[name].Node?
    ensures FieldTypes(t, name) == Some(["null"] + EmittedTypes(t.children["object"].children[name].keys))
  {
    SchemaOfWellFormed(t);
    SchemaShape(t);
    var kinds := t.children["object"].children[name];
    assert Valid(kinds) && WfKinds(kinds);
    SchemaOfWellFormed(kinds);
    SchemaShape(kinds);
  }

  /** The `type` list follows record order as well: two records `{"x": v1}`
      and `{"x": v2}` whose kinds have different type names (an integer and a
      plain string, say) give trees that are equal as Python compares them,
      but type lists in opposite orders, and Python compares lists in order. */
  lemma TypesDependOnRecordOrder(v1: Json, v2: Json, isDate: string -> bool)
    requires IsScalar(v1) && IsScalar(v2) && !v1.JNull? && !v2.JNull?
    requires TypeName(KindOf(v1, isDate)) != TypeName(KindOf(v2, isDate))
    ensures var k1, k2 := KindOf(v1, isDate), KindOf(v2, isDate);
      && ObserveRecords(Empty, [JObj([("x", v1)]), JObj([("x", v2)])], isDate) == Ok(OneField(Pair(k1, k2)))
      && ObserveRecords(Empty, [JObj([("x", v2)]), JObj([("x", v1)])], isDate) == Ok(OneField(Pair(k2, k1)))
      && Same(OneField(Pair(k1, k2)), OneField(Pair(k2, k1)))
      && Valid(OneField(Pair(k1, k2))) && Valid(OneField(Pair(k2, k1)))
      && FieldTypes(OneField(Pair(k1, k2)), "x") == Some(["null", TypeName(k1), TypeName(k2)])
      && FieldTypes(OneField(Pair(k2, k1)), "x") == Some(["null", TypeName(k2), TypeName(k1)])
      && FieldTypes(OneField(Pair(k1, k2)), "x") != FieldTypes(OneField(Pair(k2, k1)), "x")
  {
    var k1, k2 := KindOf(v1, isDate), KindOf(v2, isDate);
    TwoRecordsTree(v1, v2, isDate);
    TwoRecordsTree(v2, v1, isDate);
    PairSame(k1, k2);
    PairTypes(k1, k2);
    PairTypes(k2, k1);
    assert ["null", TypeName(k1), TypeName(k2)][1] != ["null", TypeName(k2), TypeName(k1)][1];
  }

  lemma PairTypes(k1: string, k2: string)
    requires IsTerminal(k1) && IsTerminal(k2) && k1 != k2
    requires k1 != "null" && k2 != "null"
    ensures Valid(OneField(Pair(k1, k2)))
    ensures FieldTypes(OneField(Pair(k1, k2)), "x") == Some(["null", TypeName(k1), TypeName(k2)])
  {
    var p := Pair(k1, k2);
    assert Valid(p) && WfKinds(p);
    assert Valid(OneField(p)) && WfKinds(OneField(p));
    KindsTypes(OneField(p), "x");
    assert OneField(p).children["object"].children["x"] == p;
    assert p.keys[1..] == [k2];
    assert EmittedTypes([k2]) == [TypeName(k2)] by {
      assert [k2][1..] == [];
    }
    assert EmittedTypes(p.keys) == [TypeName(k1)] + EmittedTypes([k2]);
    assert ["null"] + EmittedTypes(p.keys) == ["null", TypeName(k1), TypeName(k2)];
  }
}
