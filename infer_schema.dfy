/** `add_observations` of singertools/infer_schema.py: classify a decoded
    JSON value, recurse into objects and arrays, and record every scalar's
    kind under a path of `"object", <field>` and `"array"` steps.

    `isDate` stands for the test `dateutil.parser.isoparse(s)` succeeds; the
    parser is a library the model does not include. */
module InferSchema {
  import opened Wrappers
  import opened JsonValues
  import opened ObservationTree

  /** The kinds that are stored as `True`. */
  predicate IsTerminal(k: string)
  {
    k == "date" || k == "string" || k == "boolean" || k == "integer" || k == "number" || k == "null"
  }

  predicate IsScalar(v: Json)
  {
    v.JStr? || v.JBool? || v.JInt? || v.JFloat? || v.JNull?
  }

  /** The kind recorded for a scalar, in the branch order of the source: a
      string is a `date` when it parses as an ISO 8601 date-time and a
      `string` otherwise. The source tests `bool` before `int` because a
      Python bool is an int; `JBool` and `JInt` are distinct here. */
  function KindOf(v: Json, isDate: string -> bool): (k: string)
    requires IsScalar(v)
    ensures IsTerminal(k)
    ensures v.JStr? ==> (k == "date" <==> isDate(v.str)) && (k == "string" <==> !isDate(v.str))
    ensures v.JBool? <==> k == "boolean"
    ensures v.JInt? <==> k == "integer"
    ensures v.JFloat? <==> k == "number"
    ensures v.JNull? <==> k == "null"
  {
    match v
    case JStr(s) => if isDate(s) then "date" else "string"
    case JBool(_) => "boolean"
    case JInt(_) => "integer"
    case JFloat(_) => "number"
    case JNull => "null"
  }

  /** `add_observations(acc, path, data)`, as the tree it leaves behind. */
  function Observe(acc: Obs, path: seq<string>, data: Json, isDate: string -> bool): Result<Obs, Error>
    decreases data, 1, 0
  {
    match data
    case JObj(ms) => ObserveMembers(acc, path, data, |ms|, isDate)
    case JArr(xs) => ObserveItems(acc, path, data, |xs|, isDate)
    case JOther => Err(UnexpectedValue)
    case _ => AddObservation(acc, path + [KindOf(data, isDate)])
  }

  /** The effect of the first `n` turns of `for key in data`. */
  function ObserveMembers(acc: Obs, path: seq<string>, obj: Json, n: nat, isDate: string -> bool): Result<Obs, Error>
    requires obj.JObj? && n <= |obj.members|
    decreases obj, 0, n
  {
    if n == 0 then Ok(acc)
    else
      var a :- ObserveMembers(acc, path, obj, n - 1, isDate);
      Observe(a, path + ["object", obj.members[n - 1].0], obj.members[n - 1].1, isDate)
  }

  /** The effect of the first `n` turns of `for item in data`: every element
      goes under the same path, whatever its index. */
  function ObserveItems(acc: Obs, path: seq<string>, arr: Json, n: nat, isDate: string -> bool): Result<Obs, Error>
    requires arr.JArr? && n <= |arr.items|
    decreases arr, 0, n
  {
    if n == 0 then Ok(acc)
    else
      var a :- ObserveItems(acc, path, arr, n - 1, isDate);
      Observe(a, path + ["array"], arr.items[n - 1], isDate)
  }

  /** `add_observations`, as the source writes it: it loops over the members
      or items and calls itself on each. */
  method AddObservations(acc: Obs, path: seq<string>, data: Json, isDate: string -> bool)
    returns (r: Result<Obs, Error>)
    ensures r == Observe(acc, path, data, isDate)
    decreases data
  {
    match data {
      case JObj(ms) =>
        var a := acc;
        for i := 0 to |ms|
          invariant ObserveMembers(acc, path, data, i, isDate) == Ok(a)
        {
          var step := AddObservations(a, path + ["object", ms[i].0], ms[i].1, isDate);
          if step.Err? {
            MembersErrSticks(acc, path, data, i + 1, |ms|, isDate);
            return step;
          }
          a := step.value;
        }
        return Ok(a);
      case JArr(xs) =>
        var a := acc;
        for i := 0 to |xs|
          invariant ObserveItems(acc, path, data, i, isDate) == Ok(a)
        {
          var step := AddObservations(a, path + ["array"], xs[i], isDate);
          if step.Err? {
            ItemsErrSticks(acc, path, data, i + 1, |xs|, isDate);
            return step;
          }
          a := step.value;
        }
        return Ok(a);
      case JOther =>
        return Err(UnexpectedValue);
      case _ =>
        r := AddObservationWalk(acc, path + [KindOf(data, isDate)]);
    }
  }

  lemma {:induction false} MembersErrSticks(acc: Obs, path: seq<string>, obj: Json, i: nat, n: nat, isDate: string -> bool)
    requires obj.JObj? && i <= n <= |obj.members|
    requires ObserveMembers(acc, path, obj, i, isDate).Err?
    ensures ObserveMembers(acc, path, obj, n, isDate) == ObserveMembers(acc, path, obj, i, isDate)
    decreases n
  {
    if n > i {
      MembersErrSticks(acc, path, obj, i, n - 1, isDate);
    }
  }

  lemma {:induction false} ItemsErrSticks(acc: Obs, path: seq<string>, arr: Json, i: nat, n: nat, isDate: string -> bool)
    requires arr.JArr? && i <= n <= |arr.items|
    requires ObserveItems(acc, path, arr, i, isDate).Err?
    ensures ObserveItems(acc, path, arr, n, isDate) == ObserveItems(acc, path, arr, i, isDate)
    decreases n
  {
    if n > i {
      ItemsErrSticks(acc, path, arr, i, n - 1, isDate);
    }
  }

  // ---------------------------------------------------------------------
  // The paths a value records, stated without the tree

  /** Every path `add_observations(acc, path, v)` marks `True`: one per
      scalar inside `v`, ending in its kind. Empty objects and arrays
      contribute nothing. */
  ghost function ValuePaths(path: seq<string>, v: Json, isDate: string -> bool): set<seq<string>>
    decreases v, 1
  {
    match v
    case JObj(ms) => MemberPaths(path, v, |ms|, isDate)
    case JArr(xs) => ItemPaths(path, v, |xs|, isDate)
    case JOther => {}
    case _ => {path + [KindOf(v, isDate)]}
  }

  ghost function MemberPaths(path: seq<string>, obj: Json, n: nat, isDate: string -> bool): set<seq<string>>
    requires obj.JObj? && n <= |obj.members|
    decreases obj, 0
  {
    set i, p | 0 <= i < n && p in ValuePaths(path + ["object", obj.members[i].0], obj.members[i].1, isDate) :: p
  }

  ghost function ItemPaths(path: seq<string>, arr: Json, n: nat, isDate: string -> bool): set<seq<string>>
    requires arr.JArr? && n <= |arr.items|
    decreases arr, 0
  {
    set i, p | 0 <= i < n && p in ValuePaths(path + ["array"], arr.items[i], isDate) :: p
  }

  // ---------------------------------------------------------------------
  // The shape of the trees add_observations builds

  /** A path from a kind-map to a kind-map: `"array"` steps and
      `"object", <field>` steps. */
  predicate Steps(p: seq<string>)
    decreases |p|
  {
    || p == []
    || (p[0] == "array" && Steps(p[1..]))
    || (|p| >= 2 && p[0] == "object" && Steps(p[2..]))
  }

  /** A path from a kind-map that ends in a terminal kind. */
  predicate KindPath(p: seq<string>)
    decreases |p|
  {
    && |p| >= 1
    && (|| (|p| == 1 && IsTerminal(p[0]))
        || (p[0] == "array" && KindPath(p[1..]))
        || (|p| >= 2 && p[0] == "object" && KindPath(p[2..])))
  }

  /** A kind-map: `"object"` holds a field-map, `"array"` a kind-map, and each
      terminal kind `True`; no other key occurs. */
  ghost predicate WfKinds(o: Obs)
    decreases o, 1
  {
    && o.Node?
    && forall k | k in o.children ::
         || (k == "object" && WfFields(o.children[k]))
         || (k == "array" && WfKinds(o.children[k]))
         || (IsTerminal(k) && o.children[k] == Seen)
  }

  /** A field-map: every field name holds a kind-map. */
  ghost predicate WfFields(o: Obs)
    decreases o, 0
  {
    && o.Node?
    && forall k | k in o.children :: WfKinds(o.children[k])
  }

  /** The invariant add_observations keeps on a stream's tree. */
  ghost predicate WellFormed(o: Obs)
  {
    WfKinds(o) && Valid(o) && Full(o)
  }

  lemma {:induction false} StepsAppend(p: seq<string>, q: seq<string>)
    requires Steps(p) && Steps(q)
    ensures Steps(p + q)
    decreases |p|
  {
    if p == [] {
      assert p + q == q;
    } else if p[0] == "array" && Steps(p[1..]) {
      StepsAppend(p[1..], q);
      assert (p + q)[1..] == p[1..] + q;
    } else {
      StepsAppend(p[2..], q);
      assert (p + q)[2..] == p[2..] + q;
    }
  }

  lemma {:induction false} StepsThenKind(p: seq<string>, k: string)
    requires Steps(p) && IsTerminal(k)
    ensures KindPath(p + [k])
    decreases |p|
  {
    if p == [] {
    } else if p[0] == "array" && Steps(p[1..]) {
      StepsThenKind(p[1..], k);
      assert (p + [k])[1..] == p[1..] + [k];
    } else {
      StepsThenKind(p[2..], k);
      assert (p + [k])[2..] == p[2..] + [k];
    }
  }

  lemma StepsGrow(path: seq<string>, key: string)
    requires Steps(path)
    ensures Steps(path + ["object", key]) && Steps(path + ["array"])
  {
    assert Steps(["object", key]) by {
      assert ["object", key][2..] == [];
    }
    assert Steps(["array"]) by {
      assert ["array"][1..] == [];
    }
    StepsAppend(path, ["object", key]);
    StepsAppend(path, ["array"]);
  }

  /** Inserting a kind path into a kind-map succeeds, keeps it a kind-map,
      and never lands on a dict. */
  lemma {:induction false} InsertKinds(t: Obs, p: seq<string>)
    requires WfKinds(t) && KindPath(p)
    ensures AddObservation(t, p).Ok?
    ensures WfKinds(AddObservation(t, p).value)
    ensures Walk(t, p) != None ==> Walk(t, p) == Some(Seen)
    decreases |p|, 1
  {
    var k := p[0];
    var m := t.children;
    assert k in m ==> Walk(t, p) == Walk(m[k], p[1..]);
    if |p| == 1 && IsTerminal(k) {
      assert k != "object" && k != "array";
    } else if k == "array" {
      var child := if k in m then m[k] else Empty;
      InsertKinds(child, p[1..]);
    } else {
      assert k == "object" && |p| >= 2 && KindPath(p[2..]);
      var child := if k in m then m[k] else Empty;
      InsertFields(child, p[1..]);
    }
  }

  lemma {:induction false} InsertFields(t: Obs, p: seq<string>)
    requires WfFields(t) && |p| >= 2 && KindPath(p[1..])
    ensures AddObservation(t, p).Ok?
    ensures WfFields(AddObservation(t, p).value)
    ensures Walk(t, p) != None ==> Walk(t, p) == Some(Seen)
    decreases |p|, 0
  {
    var k := p[0];
    var m := t.children;
    assert k in m ==> Walk(t, p) == Walk(m[k], p[1..]);
    var child := if k in m then m[k] else Empty;
    InsertKinds(child, p[1..]);
  }

  lemma {:induction false} GrowsTrans(a: Obs, b: Obs, c: Obs)
    requires Grows(a, b) && Grows(b, c)
    ensures Grows(a, c)
  {
    match a
    case Seen =>
    case Node(_, m) =>
      forall k | k in m ensures k in c.children && Grows(m[k], c.children[k]) {
        GrowsTrans(m[k], b.children[k], c.children[k]);
      }
  }

  /** add_observations on a well-formed tree at a kind-map path: it fails
      exactly when the value holds something of no known type; otherwise
      the tree stays well-formed, only grows, and gains exactly the value's
      paths as leaves. */
  lemma {:induction false} ObserveWellFormed(t: Obs, path: seq<string>, v: Json, isDate: string -> bool)
    requires WellFormed(t) && Steps(path)
    ensures Observe(t, path, v, isDate).Ok? <==> Supported(v)
    ensures Observe(t, path, v, isDate).Ok? ==>
      var r := Observe(t, path, v, isDate).value;
      && WellFormed(r)
      && Grows(t, r)
      && Leaves(r) == Leaves(t) + ValuePaths(path, v, isDate)
    decreases v, 1
  {
    match v
    case JObj(ms) => MembersWellFormed(t, path, v, |ms|, isDate);
    case JArr(xs) => ItemsWellFormed(t, path, v, |xs|, isDate);
    case JOther =>
    case _ =>
      var p := path + [KindOf(v, isDate)];
      StepsThenKind(path, KindOf(v, isDate));
      InsertKinds(t, p);
      AddObservationValid(t, p);
      AddObservationFull(t, p);
      AddObservationGrows(t, p);
      AddObservationLeaves(t, p);
  }

  lemma {:induction false} MembersWellFormed(t: Obs, path: seq<string>, obj: Json, n: nat, isDate: string -> bool)
    requires WellFormed(t) && Steps(path)
    requires obj.JObj? && n <= |obj.members|
    ensures ObserveMembers(t, path, obj, n, isDate).Ok? <==>
      forall i | 0 <= i < n :: Supported(obj.members[i].1)
    ensures ObserveMembers(t, path, obj, n, isDate).Ok? ==>
      var r := ObserveMembers(t, path, obj, n, isDate).value;
      && WellFormed(r)
      && Grows(t, r)
      && Leaves(r) == Leaves(t) + MemberPaths(path, obj, n, isDate)
    decreases obj, 0, n
  {
    if n == 0 {
      GrowsRefl(t);
    } else {
      MembersWellFormed(t, path, obj, n - 1, isDate);
      var prev := ObserveMembers(t, path, obj, n - 1, isDate);
      if prev.Ok? {
        var (key, value) := obj.members[n - 1];
        StepsGrow(path, key);
        ObserveWellFormed(prev.value, path + ["object", key], value, isDate);
        if ObserveMembers(t, path, obj, n, isDate).Ok? {
          GrowsTrans(t, prev.value, ObserveMembers(t, path, obj, n, isDate).value);
        }
        MemberPathsSnoc(path, obj, n, isDate);
      }
    }
  }

  lemma {:induction false} ItemsWellFormed(t: Obs, path: seq<string>, arr: Json, n: nat, isDate: string -> bool)
    requires WellFormed(t) && Steps(path)
    requires arr.JArr? && n <= |arr.items|
    ensures ObserveItems(t, path, arr, n, isDate).Ok? <==>
      forall i | 0 <= i < n :: Supported(arr.items[i])
    ensures ObserveItems(t, path, arr, n, isDate).Ok? ==>
      var r := ObserveItems(t, path, arr, n, isDate).value;
      && WellFormed(r)
      && Grows(t, r)
      && Leaves(r) == Leaves(t) + ItemPaths(path, arr, n, isDate)
    decreases arr, 0, n
  {
    if n == 0 {
      GrowsRefl(t);
    } else {
      ItemsWellFormed(t, path, arr, n - 1, isDate);
      var prev := ObserveItems(t, path, arr, n - 1, isDate);
      if prev.Ok? {
        StepsGrow(path, "");
        ObserveWellFormed(prev.value, path + ["array"], arr.items[n - 1], isDate);
        if ObserveItems(t, path, arr, n, isDate).Ok? {
          GrowsTrans(t, prev.value, ObserveItems(t, path, arr, n, isDate).value);
        }
        ItemPathsSnoc(path, arr, n, isDate);
      }
    }
  }

  lemma MemberPathsSnoc(path: seq<string>, obj: Json, n: nat, isDate: string -> bool)
    requires obj.JObj? && 0 < n <= |obj.members|
    ensures MemberPaths(path, obj, n, isDate) ==
      MemberPaths(path, obj, n - 1, isDate) + ValuePaths(path + ["object", obj.members[n - 1].0], obj.members[n - 1].1, isDate)
  {
  }

  lemma ItemPathsSnoc(path: seq<string>, arr: Json, n: nat, isDate: string -> bool)
    requires arr.JArr? && 0 < n <= |arr.items|
    ensures ItemPaths(path, arr, n, isDate) ==
      ItemPaths(path, arr, n - 1, isDate) + ValuePaths(path + ["array"], arr.items[n - 1], isDate)
  {
  }

  // ---------------------------------------------------------------------
  // Idempotence

  /** Observing a value whose paths are all leaves already changes nothing. */
  lemma {:induction false} ObserveNoop(t: Obs, path: seq<string>, v: Json, isDate: string -> bool)
    requires Supported(v) && ValuePaths(path, v, isDate) <= Leaves(t)
    ensures Observe(t, path, v, isDate) == Ok(t)
    decreases v, 1
  {
    match v
    case JObj(ms) => MembersNoop(t, path, v, |ms|, isDate);
    case JArr(xs) => ItemsNoop(t, path, v, |xs|, isDate);
    case JOther =>
    case _ =>
      var p := path + [KindOf(v, isDate)];
      LeavesWalk(t, p);
      AddObservationNoop(t, p);
  }

  lemma {:induction false} MembersNoop(t: Obs, path: seq<string>, obj: Json, n: nat, isDate: string -> bool)
    requires obj.JObj? && n <= |obj.members|
    requires forall i | 0 <= i < n :: Supported(obj.members[i].1)
    requires MemberPaths(path, obj, n, isDate) <= Leaves(t)
    ensures ObserveMembers(t, path, obj, n, isDate) == Ok(t)
    decreases obj, 0, n
  {
    if n > 0 {
      var (key, value) := obj.members[n - 1];
      assert MemberPaths(path, obj, n, isDate) ==
        MemberPaths(path, obj, n - 1, isDate) + ValuePaths(path + ["object", key], value, isDate);
      MembersNoop(t, path, obj, n - 1, isDate);
      ObserveNoop(t, path + ["object", key], value, isDate);
    }
  }

  lemma {:induction false} ItemsNoop(t: Obs, path: seq<string>, arr: Json, n: nat, isDate: string -> bool)
    requires arr.JArr? && n <= |arr.items|
    requires forall i | 0 <= i < n :: Supported(arr.items[i])
    requires ItemPaths(path, arr, n, isDate) <= Leaves(t)
    ensures ObserveItems(t, path, arr, n, isDate) == Ok(t)
    decreases arr, 0, n
  {
    if n > 0 {
      assert ItemPaths(path, arr, n, isDate) ==
        ItemPaths(path, arr, n - 1, isDate) + ValuePaths(path + ["array"], arr.items[n - 1], isDate);
      ItemsNoop(t, path, arr, n - 1, isDate);
      ObserveNoop(t, path + ["array"], arr.items[n - 1], isDate);
    }
  }

  /** An empty dict or an empty list records nothing, not even its own kind. */
  lemma EmptyContainersRecordNothing(t: Obs, path: seq<string>, isDate: string -> bool)
    ensures Observe(t, path, JObj([]), isDate) == Ok(t)
    ensures Observe(t, path, JArr([]), isDate) == Ok(t)
    ensures ValuePaths(path, JObj([]), isDate) == {} && ValuePaths(path, JArr([]), isDate) == {}
  {
  }

  /** Observing the same value twice leaves the same tree, insertion order
      included, as observing it once: the tree records sets, not counts. */
  lemma ObserveIdempotent(t: Obs, path: seq<string>, v: Json, isDate: string -> bool)
    requires WellFormed(t) && Steps(path)
    requires Observe(t, path, v, isDate).Ok?
    ensures Observe(Observe(t, path, v, isDate).value, path, v, isDate) == Observe(t, path, v, isDate)
  {
    ObserveWellFormed(t, path, v, isDate);
    ObserveNoop(Observe(t, path, v, isDate).value, path, v, isDate);
  }

  // ---------------------------------------------------------------------
  // Many records into one tree

  /** `add_observations(tree, [], rec)` for each record in turn, as the
      per-stream loop of `infer_schemas` does. */
  function ObserveRecords(t: Obs, recs: seq<Json>, isDate: string -> bool): Result<Obs, Error>
    decreases |recs|
  {
    if recs == [] then Ok(t)
    else
      var a :- ObserveRecords(t, recs[..|recs| - 1], isDate);
      Observe(a, [], recs[|recs| - 1], isDate)
  }

  ghost function RecordPaths(recs: seq<Json>, isDate: string -> bool): set<seq<string>>
  {
    set i, p | 0 <= i < |recs| && p in ValuePaths([], recs[i], isDate) :: p
  }

  /** Observing records fails exactly when one holds an unsupported value;
      otherwise the tree stays well-formed and its leaves are the union of
      the records' paths. */
  lemma {:induction false} ObserveRecordsLeaves(t: Obs, recs: seq<Json>, isDate: string -> bool)
    requires WellFormed(t)
    ensures ObserveRecords(t, recs, isDate).Ok? <==> forall i | 0 <= i < |recs| :: Supported(recs[i])
    ensures ObserveRecords(t, recs, isDate).Ok? ==>
      var r := ObserveRecords(t, recs, isDate).value;
      WellFormed(r) && Grows(t, r) && Leaves(r) == Leaves(t) + RecordPaths(recs, isDate)
    decreases |recs|
  {
    if recs == [] {
      GrowsRefl(t);
    } else {
      var init := recs[..|recs| - 1];
      var last := recs[|recs| - 1];
      ObserveRecordsLeaves(t, init, isDate);
      var prev := ObserveRecords(t, init, isDate);
      if prev.Ok? {
        ObserveWellFormed(prev.value, [], last, isDate);
        if ObserveRecords(t, recs, isDate).Ok? {
          GrowsTrans(t, prev.value, ObserveRecords(t, recs, isDate).value);
        }
      }
      assert recs == init + [last];
      assert RecordPaths(recs, isDate) == RecordPaths(init, isDate) + ValuePaths([], last, isDate);
    }
  }

  /** The tree a stream ends with depends only on the SET of records it
      received: reordering them or repeating one gives a tree that Python's
      `==` cannot tell apart (the insertion order may differ). */
  lemma ObserveRecordsOrderFree(t: Obs, recs1: seq<Json>, recs2: seq<Json>, isDate: string -> bool)
    requires WellFormed(t)
    requires forall x :: x in recs1 <==> x in recs2
    requires ObserveRecords(t, recs1, isDate).Ok?
    ensures ObserveRecords(t, recs2, isDate).Ok?
    ensures Same(ObserveRecords(t, recs1, isDate).value, ObserveRecords(t, recs2, isDate).value)
  {
    ObserveRecordsLeaves(t, recs1, isDate);
    ObserveRecordsLeaves(t, recs2, isDate);
    assert forall i | 0 <= i < |recs2| :: Supported(recs2[i]) by {
      forall i | 0 <= i < |recs2| ensures Supported(recs2[i]) {
        assert recs2[i] in recs1;
      }
    }
    var r1 := ObserveRecords(t, recs1, isDate).value;
    var r2 := ObserveRecords(t, recs2, isDate).value;
    RecordPathsOfSet(recs1, recs2, isDate);
    assert Leaves(r1) == Leaves(r2);
    LeavesDetermine(r1, r2);
  }

  lemma RecordPathsOfSet(recs1: seq<Json>, recs2: seq<Json>, isDate: string -> bool)
    requires forall x :: x in recs1 <==> x in recs2
    ensures RecordPaths(recs1, isDate) == RecordPaths(recs2, isDate)
  {
    forall p | p in RecordPaths(recs1, isDate) ensures p in RecordPaths(recs2, isDate) {
      var i :| 0 <= i < |recs1| && p in ValuePaths([], recs1[i], isDate);
      assert recs1[i] in recs2;
      var j :| 0 <= j < |recs2| && recs2[j] == recs1[i];
    }
    forall p | p in RecordPaths(recs2, isDate) ensures p in RecordPaths(recs1, isDate) {
      var j :| 0 <= j < |recs2| && p in ValuePaths([], recs2[j], isDate);
      assert recs2[j] in recs1;
      var i :| 0 <= i < |recs1| && recs1[i] == recs2[j];
    }
  }
}
