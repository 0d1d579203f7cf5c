/** The stream loop of `infer_schemas` in singertools/infer_schema.py: every
    `RECORD` line adds its record to the observation tree of its stream, and
    each stream's tree then becomes a JSON Schema. */
module InferStreams {
  import opened Wrappers
  import opened JsonValues
  import opened ObservationTree
  import opened InferSchema
  import opened SchemaSynthesis

  /** The `streams` dict: a tree per stream value, and the order in which the
      streams were first inserted (the order `streams.items()` visits them). */
  datatype Streams = Streams(order: seq<Json>, trees: map<Json, Obs>)

  const NoStreams := Streams([], map[])

  /** `line[name]` on a decoded line. */
  function Field(line: Json, name: string): Result<Json, Error>
  {
    if !line.JObj? then Err(NotAnObject)
    else match Lookup(line.members, name)
      case None => Err(MissingKey(name))
      case Some(v) => Ok(v)
  }

  /** Lists and dicts cannot be dict keys. */
  predicate Hashable(v: Json)
  {
    !v.JObj? && !v.JArr?
  }

  /** One turn of `for line in record_inputs`. */
  function AccumulateLine(st: Streams, line: Json, isDate: string -> bool): Result<Streams, Error>
  {
    var ty :- Field(line, "type");
    if ty != JStr("RECORD") then Ok(st)
    else
      var stream :- Field(line, "stream");
      if !Hashable(stream) then Err(Unhashable)
      else
        var known := stream in st.trees;
        var rec :- Field(line, "record");
        var t :- Observe(if known then st.trees[stream] else Empty, [], rec, isDate);
        Ok(Streams(if known then st.order else st.order + [stream], st.trees[stream := t]))
  }

  /** The `streams` dict after the whole input. */
  function AccumulateAll(lines: seq<Json>, isDate: string -> bool): Result<Streams, Error>
    decreases |lines|
  {
    if lines == [] then Ok(NoStreams)
    else
      var st :- AccumulateAll(lines[..|lines| - 1], isDate);
      AccumulateLine(st, lines[|lines| - 1], isDate)
  }

  /** `infer_schemas` without the file and console output: the schema of
      every stream, in the order the streams first appeared. */
  method InferSchemas(lines: seq<Json>, isDate: string -> bool) returns (r: Result<seq<(Json, Schema)>, Error>)
    ensures AccumulateAll(lines, isDate).Err? ==> r == Err(AccumulateAll(lines, isDate).error)
    ensures AccumulateAll(lines, isDate).Ok? ==>
      var st := AccumulateAll(lines, isDate).value;
      && r.Ok?
      && |r.value| == |st.order|
      && forall i | 0 <= i < |st.order| ::
           && r.value[i].0 == st.order[i]
           && st.order[i] in st.trees
           && Valid(st.trees[st.order[i]])
           && ToJsonSchema(st.trees[st.order[i]]) == Ok(r.value[i].1)
  {
    var st := NoStreams;
    var i := 0;
    while i < |lines|
      invariant i <= |lines|
      invariant AccumulateAll(lines[..i], isDate) == Ok(st)
    {
      assert lines[..i + 1][..i] == lines[..i];
      var next := AddLine(st, lines[i], isDate);
      if next.Err? {
        AccumulateErrSticks(lines, i + 1, isDate);
        return Err(next.error);
      }
      st := next.value;
      i := i + 1;
    }
    assert lines[..i] == lines;
    AccumulateAllShape(lines, isDate);
    var out := EmitSchemas(st);
    return Ok(out);
  }

  /** The body of `for line in record_inputs`, on the `streams` dict `st`. */
  method AddLine(st: Streams, line: Json, isDate: string -> bool) returns (r: Result<Streams, Error>)
    ensures r == AccumulateLine(st, line, isDate)
  {
    var order, trees := st.order, st.trees;
    var ty := Field(line, "type");
    if ty.Err? {
      return Err(ty.error);
    }
    if ty.value == JStr("RECORD") {
      var stream := Field(line, "stream");
      if stream.Err? {
        return Err(stream.error);
      }
      var s := stream.value;
      if !Hashable(s) {
        return Err(Unhashable);
      }
      if s !in trees {
        order := order + [s];
        trees := trees[s := Empty];
      }
      var rec := Field(line, "record");
      if rec.Err? {
        return Err(rec.error);
      }
      var t := AddObservations(trees[s], [], rec.value, isDate);
      if t.Err? {
        return Err(t.error);
      }
      trees := trees[s := t.value];
      assert trees == st.trees[s := t.value];
    }
    return Ok(Streams(order, trees));
  }

  /** The second loop of `infer_schemas`: `to_json_schema` of each stream's
      tree, in `streams.items()` order. */
  method EmitSchemas(st: Streams) returns (out: seq<(Json, Schema)>)
    requires StreamsOk(st)
    ensures |out| == |st.order|
    ensures forall i | 0 <= i < |st.order| ::
      && out[i].0 == st.order[i]
      && st.order[i] in st.trees
      && Valid(st.trees[st.order[i]])
      && ToJsonSchema(st.trees[st.order[i]]) == Ok(out[i].1)
  {
    out := [];
    var j := 0;
    while j < |st.order|
      invariant j <= |st.order|
      invariant |out| == j
      invariant forall k | 0 <= k < j ::
        && out[k].0 == st.order[k]
        && st.order[k] in st.trees
        && Valid(st.trees[st.order[k]])
        && ToJsonSchema(st.trees[st.order[k]]) == Ok(out[k].1)
    {
      var obs := st.trees[st.order[j]];
      SchemaOfWellFormed(obs);
      var schema := ToJsonSchema(obs);
      out := out + [(st.order[j], schema.value)];
      j := j + 1;
    }
  }

  lemma {:induction false} AccumulateErrSticks(lines: seq<Json>, n: nat, isDate: string -> bool)
    requires n <= |lines| && AccumulateAll(lines[..n], isDate).Err?
    ensures AccumulateAll(lines, isDate) == AccumulateAll(lines[..n], isDate)
    decreases |lines|
  {
    if n < |lines| {
      var init := lines[..|lines| - 1];
      assert init[..n] == lines[..n];
      AccumulateErrSticks(init, n, isDate);
    } else {
      assert lines[..n] == lines;
    }
  }

  // ---------------------------------------------------------------------
  // What the loop computes

  /** A line `infer_schemas` gets through without raising. */
  predicate LineOk(line: Json)
  {
    && Field(line, "type").Ok?
    && (Field(line, "type").value == JStr("RECORD") ==>
          && Field(line, "stream").Ok?
          && Hashable(Field(line, "stream").value)
          && Field(line, "record").Ok?
          && Supported(Field(line, "record").value))
  }

  /** `line` is a `RECORD` message of stream `s`. */
  predicate IsRecordOf(line: Json, s: Json)
  {
    && Field(line, "type") == Ok(JStr("RECORD"))
    && Field(line, "stream") == Ok(s)
    && Field(line, "record").Ok?
  }

  /** The records of stream `s`, in input order. */
  function RecordsOf(lines: seq<Json>, s: Json): seq<Json>
    decreases |lines|
  {
    if lines == [] then []
    else
      var line := lines[|lines| - 1];
      RecordsOf(lines[..|lines| - 1], s)
        + (if IsRecordOf(line, s) then [Field(line, "record").value] else [])
  }

  /** What the `streams` dict satisfies: its insertion order lists each key
      once, every key is hashable, and every tree is one add_observations
      can have built. */
  ghost predicate StreamsOk(st: Streams)
  {
    && (forall i, j | 0 <= i < j < |st.order| :: st.order[i] != st.order[j])
    && (forall s :: s in st.trees <==> s in st.order)
    && (forall s | s in st.trees :: Hashable(s) && WellFormed(st.trees[s]))
  }

  lemma EmptyWellFormed()
    ensures WellFormed(Empty)
  {
    assert Leaves(Empty) == {};
  }

  /** One line: it fails exactly when the source raises; a line that is not a
      `RECORD` changes nothing; a record changes its own stream's tree and no
      other, and a stream seen for the first time goes to the end of the
      order. */
  lemma AccumulateLineEffect(st: Streams, line: Json, isDate: string -> bool)
    requires StreamsOk(st)
    ensures AccumulateLine(st, line, isDate).Ok? <==> LineOk(line)
    ensures LineOk(line) && Field(line, "type").value != JStr("RECORD") ==>
      AccumulateLine(st, line, isDate) == Ok(st)
    ensures LineOk(line) && Field(line, "type").value == JStr("RECORD") ==>
      var s := Field(line, "stream").value;
      var r := AccumulateLine(st, line, isDate).value;
      && IsRecordOf(line, s)
      && r.trees.Keys == st.trees.Keys + {s}
      && (forall u | u in st.trees && u != s :: r.trees[u] == st.trees[u])
      && r.order == (if s in st.trees then st.order else st.order + [s])
      && Observe(if s in st.trees then st.trees[s] else Empty, [], Field(line, "record").value, isDate)
           == Ok(r.trees[s])
    ensures AccumulateLine(st, line, isDate).Ok? ==> StreamsOk(AccumulateLine(st, line, isDate).value)
  {
    if Field(line, "type").Ok? && Field(line, "type").value == JStr("RECORD")
      && Field(line, "stream").Ok? && Hashable(Field(line, "stream").value)
      && Field(line, "record").Ok?
    {
      var s := Field(line, "stream").value;
      var t := if s in st.trees then st.trees[s] else Empty;
      EmptyWellFormed();
      InferSchema.ObserveWellFormed(t, [], Field(line, "record").value, isDate);
      if AccumulateLine(st, line, isDate).Ok? {
        var r := AccumulateLine(st, line, isDate).value;
        if s !in st.trees {
          forall i, j | 0 <= i < j < |r.order| ensures r.order[i] != r.order[j] {
            if j == |st.order| {
              assert st.order[i] in st.trees;
            }
          }
        }
      }
    }
  }

  /** The whole input: it fails exactly when some line makes the source raise,
      and otherwise each stream's tree is what its own records, in input
      order, build from `{}`, and the dict holds just the streams that had a
      record. */
  lemma {:induction false} AccumulateAllShape(lines: seq<Json>, isDate: string -> bool)
    ensures AccumulateAll(lines, isDate).Ok? <==> forall i | 0 <= i < |lines| :: LineOk(lines[i])
    ensures AccumulateAll(lines, isDate).Ok? ==>
      var st := AccumulateAll(lines, isDate).value;
      && StreamsOk(st)
      && (forall s :: s in st.trees <==> RecordsOf(lines, s) != [])
      && forall s | s in st.trees :: ObserveRecords(Empty, RecordsOf(lines, s), isDate) == Ok(st.trees[s])
    decreases |lines|
  {
    if lines != [] {
      var init := lines[..|lines| - 1];
      var line := lines[|lines| - 1];
      AccumulateAllShape(init, isDate);
      assert forall i | 0 <= i < |init| :: init[i] == lines[i];
      var prev := AccumulateAll(init, isDate);
      if prev.Ok? {
        var st := prev.value;
        AccumulateLineEffect(st, line, isDate);
        if AccumulateAll(lines, isDate).Ok? {
          var r := AccumulateAll(lines, isDate).value;
          forall s | s in r.trees
            ensures ObserveRecords(Empty, RecordsOf(lines, s), isDate) == Ok(r.trees[s])
          {
            if IsRecordOf(line, s) {
              var recs := RecordsOf(init, s);
              var rec := Field(line, "record").value;
              assert RecordsOf(lines, s) == recs + [rec];
              assert (recs + [rec])[..|recs|] == recs;
              if s !in st.trees {
                assert recs == [];
              }
            } else {
              assert RecordsOf(lines, s) == RecordsOf(init, s) + [];
              assert RecordsOf(init, s) + [] == RecordsOf(init, s);
              assert s in st.trees;
              assert r.trees[s] == st.trees[s];
            }
          }
        }
      }
    }
  }

  /** A stream's tree, and so its schema, does not depend on the lines of any
      other stream: two inputs that give stream `s` the same records give it
      the same tree. */
  lemma StreamIsolation(lines1: seq<Json>, lines2: seq<Json>, s: Json, isDate: string -> bool)
    requires AccumulateAll(lines1, isDate).Ok? && AccumulateAll(lines2, isDate).Ok?
    requires RecordsOf(lines1, s) == RecordsOf(lines2, s)
    ensures s in AccumulateAll(lines1, isDate).value.trees <==> s in AccumulateAll(lines2, isDate).value.trees
    ensures s in AccumulateAll(lines1, isDate).value.trees ==>
      AccumulateAll(lines1, isDate).value.trees[s] == AccumulateAll(lines2, isDate).value.trees[s]
  {
    AccumulateAllShape(lines1, isDate);
    AccumulateAllShape(lines2, isDate);
  }

  /** Every stream's tree has a schema: `to_json_schema` does not raise on
      any tree `infer_schemas` builds. */
  lemma EveryStreamHasSchema(lines: seq<Json>, isDate: string -> bool)
    requires AccumulateAll(lines, isDate).Ok?
    ensures forall s | s in AccumulateAll(lines, isDate).value.trees ::
      Valid(AccumulateAll(lines, isDate).value.trees[s])
      && ToJsonSchema(AccumulateAll(lines, isDate).value.trees[s]).Ok?
  {
    AccumulateAllShape(lines, isDate);
    var st := AccumulateAll(lines, isDate).value;
    forall s | s in st.trees ensures Valid(st.trees[s]) && ToJsonSchema(st.trees[s]).Ok? {
      SchemaOfWellFormed(st.trees[s]);
    }
  }

  /** Reordering or repeating the records of one stream, among any other
      lines, leaves that stream with a tree Python's `==` calls equal. */
  lemma StreamTreeOrderFree(lines1: seq<Json>, lines2: seq<Json>, s: Json, isDate: string -> bool)
    requires AccumulateAll(lines1, isDate).Ok? && AccumulateAll(lines2, isDate).Ok?
    requires s in AccumulateAll(lines1, isDate).value.trees
    requires forall x :: x in RecordsOf(lines1, s) <==> x in RecordsOf(lines2, s)
    ensures s in AccumulateAll(lines2, isDate).value.trees
    ensures Same(AccumulateAll(lines1, isDate).value.trees[s], AccumulateAll(lines2, isDate).value.trees[s])
  {
    AccumulateAllShape(lines1, isDate);
    AccumulateAllShape(lines2, isDate);
    var recs1, recs2 := RecordsOf(lines1, s), RecordsOf(lines2, s);
    assert recs1[0] in recs2;
    EmptyWellFormed();
    ObserveRecordsOrderFree(Empty, recs1, recs2, isDate);
  }
}
