/** singertools/analyze_record_fields.py: the `/`-joined key paths of a
    record, and how many of them there are under each path prefix. */
module RecordFields {
  import opened JsonValues

  // ---------------------------------------------------------------------
  // get_paths_from_rec

  /** The paths `get_paths_from_rec(rec, prefix)` returns, from the first `n`
      keys of `rec`. */
  ghost function MemberPaths(rec: Json, prefix: string, n: nat): set<string>
    requires rec.JObj? && n <= |rec.members|
    decreases rec, 0
  {
    set i, p | 0 <= i < n && p in KeyPaths(rec.members[i].1, prefix + "/" + rec.members[i].0) :: p
  }

  /** The paths contributed by a key whose path is `path` and whose value is
      `v`: the path itself, and the paths inside a dict value or inside the
      dict elements of a list value, all under `path`. */
  ghost function KeyPaths(v: Json, path: string): set<string>
    decreases v, 2
  {
    {path} + match v
      case JObj(ms) => MemberPaths(v, path, |ms|)
      case JArr(xs) => ItemPaths(v, path, |xs|)
      case _ => {}
  }

  /** The paths of the dict elements among the first `n` elements of `arr`. */
  ghost function ItemPaths(arr: Json, path: string, n: nat): set<string>
    requires arr.JArr? && n <= |arr.items|
    decreases arr, 1
  {
    set j, p | 0 <= j < n && arr.items[j].JObj? && p in MemberPaths(arr.items[j], path, |arr.items[j].members|) :: p
  }

  ghost function FieldPaths(rec: Json, prefix: string): set<string>
    requires rec.JObj?
  {
    MemberPaths(rec, prefix, |rec.members|)
  }

  /** `get_paths_from_rec(rec, path_to_rec)`, with its loop over the keys,
      its inner loop over a list value, and its recursion. */
  method GetPathsFromRec(rec: Json, prefix: string) returns (fields: set<string>)
    requires rec.JObj?
    ensures fields == FieldPaths(rec, prefix)
    decreases rec
  {
    fields := {};
    for i := 0 to |rec.members|
      invariant fields == MemberPaths(rec, prefix, i)
    {
      var key := rec.members[i].0;
      var value := rec.members[i].1;
      var path := prefix + "/" + key;
      MemberPathsStep(rec, prefix, i);
      fields := fields + {path};
      if value.JObj? {
        var sub := GetPathsFromRec(value, path);
        fields := fields + sub;
      } else if value.JArr? {
        for j := 0 to |value.items|
          invariant fields == MemberPaths(rec, prefix, i) + {path} + ItemPaths(value, path, j)
        {
          ItemPathsStep(value, path, j);
          if value.items[j].JObj? {
            var sub := GetPathsFromRec(value.items[j], path);
            fields := fields + sub;
          }
        }
      }
    }
  }

  lemma MemberPathsStep(rec: Json, prefix: string, n: nat)
    requires rec.JObj? && n < |rec.members|
    ensures MemberPaths(rec, prefix, n + 1)
      == MemberPaths(rec, prefix, n) + KeyPaths(rec.members[n].1, prefix + "/" + rec.members[n].0)
  {
  }

  lemma ItemPathsStep(arr: Json, path: string, n: nat)
    requires arr.JArr? && n < |arr.items|
    ensures ItemPaths(arr, path, n + 1)
      == ItemPaths(arr, path, n)
         + (if arr.items[n].JObj? then MemberPaths(arr.items[n], path, |arr.items[n].members|) else {})
  {
  }

  /** Every key of `rec` contributes its own path. */
  lemma KeyPathIn(rec: Json, prefix: string, i: nat)
    requires rec.JObj? && i < |rec.members|
    ensures prefix + "/" + rec.members[i].0 in FieldPaths(rec, prefix)
  {
    var path := prefix + "/" + rec.members[i].0;
    assert path in KeyPaths(rec.members[i].1, path);
  }

  /** A dict value is walked with the key's path as its prefix, and so is
      every dict element of a list value, with no index segment. */
  lemma NestedPathsIn(rec: Json, prefix: string, i: nat)
    requires rec.JObj? && i < |rec.members|
    ensures var path := prefix + "/" + rec.members[i].0;
      var v := rec.members[i].1;
      && (v.JObj? ==> FieldPaths(v, path) <= FieldPaths(rec, prefix))
      && (v.JArr? ==> forall j | 0 <= j < |v.items| && v.items[j].JObj? ::
            FieldPaths(v.items[j], path) <= FieldPaths(rec, prefix))
  {
    var path := prefix + "/" + rec.members[i].0;
    var v := rec.members[i].1;
    assert KeyPaths(v, path) <= FieldPaths(rec, prefix);
    if v.JArr? {
      forall j | 0 <= j < |v.items| && v.items[j].JObj?
        ensures FieldPaths(v.items[j], path) <= FieldPaths(rec, prefix)
      {
        assert FieldPaths(v.items[j], path) <= ItemPaths(v, path, |v.items|);
      }
    }
  }

  /** A record whose values hold no dict has exactly one path per key. */
  lemma FlatRecordPaths(rec: Json, prefix: string)
    requires rec.JObj?
    requires forall i | 0 <= i < |rec.members| ::
      !rec.members[i].1.JObj? && (rec.members[i].1.JArr? ==> forall x | x in rec.members[i].1.items :: !x.JObj?)
    ensures FieldPaths(rec, prefix) == set i | 0 <= i < |rec.members| :: prefix + "/" + rec.members[i].0
  {
    forall i | 0 <= i < |rec.members|
      ensures KeyPaths(rec.members[i].1, prefix + "/" + rec.members[i].0) == {prefix + "/" + rec.members[i].0}
    {
      var v := rec.members[i].1;
      if v.JArr? {
        assert ItemPaths(v, prefix + "/" + rec.members[i].0, |v.items|) == {} by {
          forall j | 0 <= j < |v.items| ensures !v.items[j].JObj? {
            assert v.items[j] in v.items;
          }
        }
      }
    }
  }

  /** Every path starts with `prefix + "/"`. It need not be longer: a key
      `""` has the path `prefix + "/"` itself. */
  lemma {:induction false} PathsExtendPrefix(rec: Json, prefix: string, n: nat)
    requires rec.JObj? && n <= |rec.members|
    ensures forall p | p in MemberPaths(rec, prefix, n) ::
      |p| > |prefix| && p[..|prefix| + 1] == prefix + "/"
    decreases rec, 0, n
  {
    forall p | p in MemberPaths(rec, prefix, n)
      ensures |p| > |prefix| && p[..|prefix| + 1] == prefix + "/"
    {
      var i :| 0 <= i < n && p in KeyPaths(rec.members[i].1, prefix + "/" + rec.members[i].0);
      var path := prefix + "/" + rec.members[i].0;
      KeyPathsExtend(rec.members[i].1, path);
      assert path[..|prefix| + 1] == prefix + "/";
      assert p[..|prefix| + 1] == p[..|path|][..|prefix| + 1];
    }
  }

  lemma {:induction false} KeyPathsExtend(v: Json, path: string)
    ensures forall p | p in KeyPaths(v, path) :: |p| >= |path| && p[..|path|] == path
    decreases v, 2
  {
    match v
    case JObj(ms) =>
      PathsExtendPrefix(v, path, |ms|);
      forall p | p in MemberPaths(v, path, |ms|) ensures p[..|path|] == path {
        assert p[..|path|] == p[..|path| + 1][..|path|];
      }
    case JArr(xs) =>
      forall p | p in ItemPaths(v, path, |xs|) ensures |p| >= |path| && p[..|path|] == path {
        var j :| 0 <= j < |xs| && xs[j].JObj? && p in MemberPaths(xs[j], path, |xs[j].members|);
        PathsExtendPrefix(xs[j], path, |xs[j].members|);
        assert p[..|path|] == p[..|path| + 1][..|path|];
      }
    case _ =>
  }

  lemma EmptyKeyPath(prefix: string)
    ensures prefix + "/" in FieldPaths(JObj([("", JNull)]), prefix)
  {
    KeyPathIn(JObj([("", JNull)]), prefix, 0);
    assert prefix + "/" + "" == prefix + "/";
  }

  // ---------------------------------------------------------------------
  // str.split('/') and '/'.join

  /** `s.split('/')`. */
  function Split(s: string): (r: seq<string>)
    ensures |r| >= 1
    ensures forall i | 0 <= i < |r| :: '/' !in r[i]
    decreases |s|
  {
    if |s| == 0 then [""]
    else
      var rest := Split(s[1..]);
      if s[0] == '/' then [""] + rest
      else [[s[0]] + rest[0]] + rest[1..]
  }

  /** `'/'.join(parts)`. */
  function Join(parts: seq<string>): string
  {
    if |parts| == 0 then ""
    else if |parts| == 1 then parts[0]
    else parts[0] + "/" + Join(parts[1..])
  }

  lemma {:induction false} JoinSplit(s: string)
    ensures Join(Split(s)) == s
    decreases |s|
  {
    if |s| > 0 {
      JoinSplit(s[1..]);
      var rest := Split(s[1..]);
      if s[0] == '/' {
        assert ([""] + rest)[1..] == rest;
      } else {
        var r := [[s[0]] + rest[0]] + rest[1..];
        assert r[1..] == rest[1..];
        if |rest| > 1 {
          assert Join(rest) == rest[0] + "/" + Join(rest[1..]);
        }
      }
    }
  }

  lemma {:induction false} SplitJoin(parts: seq<string>)
    requires |parts| >= 1
    requires forall i | 0 <= i < |parts| :: '/' !in parts[i]
    ensures Split(Join(parts)) == parts
    decreases |parts|
  {
    if |parts| == 1 {
      SplitNoSlash(parts[0]);
    } else {
      SplitJoin(parts[1..]);
      SplitAppend(parts[0], Join(parts[1..]));
    }
  }

  lemma {:induction false} SplitNoSlash(s: string)
    requires '/' !in s
    ensures Split(s) == [s]
    decreases |s|
  {
    if |s| > 0 {
      assert '/' !in s[1..] by {
        forall c | c in s[1..] ensures c in s {
          var i :| 0 <= i < |s[1..]| && s[1..][i] == c;
          assert s[i + 1] == c;
        }
      }
      SplitNoSlash(s[1..]);
      assert [s[0]] + s[1..] == s;
    }
  }

  lemma {:induction false} SplitAppend(a: string, b: string)
    requires '/' !in a
    ensures Split(a + "/" + b) == [a] + Split(b)
    decreases |a|
  {
    if |a| == 0 {
      assert a + "/" + b == "/" + b;
      assert ("/" + b)[1..] == b;
    } else {
      assert '/' !in a[1..] by {
        forall c | c in a[1..] ensures c in a {
          var i :| 0 <= i < |a[1..]| && a[1..][i] == c;
          assert a[i + 1] == c;
        }
      }
      SplitAppend(a[1..], b);
      assert (a + "/" + b)[1..] == a[1..] + "/" + b;
      assert [a[0]] + a[1..] == a;
    }
  }

  // ---------------------------------------------------------------------
  // get_counts

  /** The paths with more than `level` segments. */
  function Selected(u: set<string>, level: nat): set<string>
  {
    set f | f in u && |Split(f)| > level
  }

  /** `'/'.join(f.split('/')[1:level + 1])`. */
  function LevelKey(f: string, level: nat): string
    requires |Split(f)| > level
  {
    Join(Split(f)[1..level + 1])
  }

  /** The paths of `u` counted under `key`. */
  function Fiber(u: set<string>, level: nat, key: string): set<string>
  {
    set f | f in u && |Split(f)| > level && LevelKey(f, level) == key
  }

  /** `dict(Counter(...))`: each level key appears with the number of
      selected paths that have that key. */
  function GetCounts(u: set<string>, level: nat): map<string, nat>
  {
    map k | k in (set f | f in u && |Split(f)| > level :: LevelKey(f, level)) :: |Fiber(u, level, k)|
  }

  /** The sum of the counts over the keys `ks`. */
  ghost function SumOver(m: map<string, nat>, ks: set<string>): nat
    requires ks <= m.Keys
  {
    if ks == {} then 0
    else
      var k :| k in ks;
      m[k] + SumOver(m, ks - {k})
  }

  ghost function Total(m: map<string, nat>): nat
  {
    SumOver(m, m.Keys)
  }

  /** The keys are the level keys of the selected paths and nothing else, and
      no key is counted zero times. */
  lemma GetCountsKeys(u: set<string>, level: nat, k: string)
    ensures k in GetCounts(u, level) <==> exists f | f in Selected(u, level) :: LevelKey(f, level) == k
    ensures k in GetCounts(u, level) ==> GetCounts(u, level)[k] >= 1
  {
    if k in GetCounts(u, level) {
      var f :| f in u && |Split(f)| > level && LevelKey(f, level) == k;
      assert f in Fiber(u, level, k);
    }
  }

  /** The counts add up to the number of paths with more than `level`
      segments. */
  lemma CountsSum(u: set<string>, level: nat)
    ensures Total(GetCounts(u, level)) == |Selected(u, level)|
  {
    var m := GetCounts(u, level);
    SumOverFibers(u, level, m.Keys);
    assert KeyedBy(u, level, m.Keys) == Selected(u, level);
  }

  /** The selected paths whose level key is in `ks`. */
  function KeyedBy(u: set<string>, level: nat, ks: set<string>): set<string>
  {
    set f | f in Selected(u, level) && LevelKey(f, level) in ks
  }

  lemma {:induction false} SumOverFibers(u: set<string>, level: nat, ks: set<string>)
    requires ks <= GetCounts(u, level).Keys
    ensures SumOver(GetCounts(u, level), ks) == |KeyedBy(u, level, ks)|
    decreases ks
  {
    var m := GetCounts(u, level);
    if ks != {} {
      var k :| k in ks && SumOver(m, ks) == m[k] + SumOver(m, ks - {k});
      SumOverFibers(u, level, ks - {k});
      KeyedBySplit(u, level, ks, k);
    }
  }

  lemma KeyedBySplit(u: set<string>, level: nat, ks: set<string>, k: string)
    requires k in ks
    ensures |KeyedBy(u, level, ks)| == |Fiber(u, level, k)| + |KeyedBy(u, level, ks - {k})|
  {
    var rest := KeyedBy(u, level, ks - {k});
    assert KeyedBy(u, level, ks) == Fiber(u, level, k) + rest;
    assert Fiber(u, level, k) !! rest;
  }

  /** At level 0 every path is selected and keyed by `""`: the one count is
      the number of paths, which "Total Fields" prints. */
  lemma LevelZero(u: set<string>)
    requires u != {}
    ensures GetCounts(u, 0) == map["" := |u|]
  {
    assert Selected(u, 0) == u;
    assert Fiber(u, 0, "") == u;
    var f :| f in u;
    assert LevelKey(f, 0) == "";
    assert (set f | f in u && |Split(f)| > 0 :: LevelKey(f, 0)) == {""};
  }

  /** Going one level deeper never counts more paths. */
  lemma DeeperCountsFewer(u: set<string>, level: nat)
    ensures Total(GetCounts(u, level + 1)) <= Total(GetCounts(u, level))
  {
    CountsSum(u, level);
    CountsSum(u, level + 1);
    assert Selected(u, level + 1) <= Selected(u, level);
    SubsetCard(Selected(u, level + 1), Selected(u, level));
  }

  lemma SubsetCard(a: set<string>, b: set<string>)
    requires a <= b
    ensures |a| <= |b|
  {
    assert b == a + (b - a);
  }
}
