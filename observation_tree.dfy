/** The observation tree of singertools/infer_schema.py and its trie insert,
    `add_observation`.

    The source keeps the tree as nested Python dicts whose leaves are `True`.
    Here a dict is `Node(keys, children)`: `children` holds its entries and
    `keys` the order in which they were inserted, which is the order in which
    `for key in obs` visits them. `True` is `Seen`. */
module ObservationTree {
  import opened Wrappers

  datatype Obs = Seen | Node(keys: seq<string>, children: map<string, Obs>)

  /** A fresh `{}`. */
  const Empty: Obs := Node([], map[])

  /** The exceptions raised by infer_schema.py. */
  datatype Error =
    | IndexError                      // `path[-1]` of an empty path
    | NotADict                        // a `True` used as a dict
    | UnexpectedValue                 // add_observations meets a value of no known type
    | UnexpectedDataType(key: string) // to_json_schema meets a key that is no kind
    | MissingKey(key: string)         // a decoded input line lacks `type`, `stream` or `record`
    | NotAnObject                     // a decoded input line that is not a JSON object
    | Unhashable                      // a stream name that cannot be a dict key

  predicate Distinct(ks: seq<string>)
  {
    forall i, j | 0 <= i < j < |ks| :: ks[i] != ks[j]
  }

  /** What every Python dict satisfies: its insertion order lists each of its
      keys exactly once. */
  ghost predicate Valid(o: Obs)
  {
    match o
    case Seen => true
    case Node(ks, m) =>
      && Distinct(ks)
      && (forall k :: k in m <==> k in ks)
      && (forall k | k in m :: Valid(m[k]))
  }

  /** `node[k] = v`: a new key goes to the end of the insertion order, an
      existing key keeps its place. */
  function Put(o: Obs, k: string, v: Obs): Obs
    requires o.Node?
  {
    if k in o.children then Node(o.keys, o.children[k := v])
    else Node(o.keys + [k], o.children[k := v])
  }

  /** `add_observation(acc, path)`: walk `path[:-1]` from `acc`, creating
      `{}` for each missing key, then set the last key to `True`. The walk
      only creates dicts after it has left the existing tree, and nothing
      after that point can fail, so on every error the tree is unchanged. */
  function AddObservation(acc: Obs, path: seq<string>): Result<Obs, Error>
    decreases path
  {
    if |path| == 0 then Err(IndexError)
    else if acc.Seen? then Err(NotADict)
    else if |path| == 1 then Ok(Put(acc, path[0], Seen))
    else
      var child := if path[0] in acc.children then acc.children[path[0]] else Empty;
      var sub :- AddObservation(child, path[1..]);
      Ok(Put(acc, path[0], sub))
  }

  /** `node[k]` after `if k not in node: node[k] = {}`. */
  function Child(o: Obs, k: string): Obs
    requires o.Node?
  {
    if k in o.children then o.children[k] else Empty
  }

  /** The `node` the walk of `add_observation` holds after following `q`
      from `o`, with `{}` for every missing key; `True` once it meets one. */
  function Descend(o: Obs, q: seq<string>): Obs
    decreases |q|
  {
    if q == [] || o.Seen? then o
    else Descend(Child(o, q[0]), q[1..])
  }

  /** `add_observation` as the source writes it: a loop moving `node` down
      `path[:-1]`, then the write of `True`. The nested dicts the loop
      changes in place are rebuilt from the nodes it passed (`spine`). */
  method AddObservationWalk(acc: Obs, path: seq<string>) returns (r: Result<Obs, Error>)
    ensures r == AddObservation(acc, path)
  {
    if |path| == 0 {
      return Err(IndexError);
    }
    var spine: seq<Obs> := [];
    var node := acc;
    for i := 0 to |path| - 1
      invariant |spine| == i
      invariant forall d | 0 <= d < i :: spine[d] == Descend(acc, path[..d]) && spine[d].Node?
      invariant node == Descend(acc, path[..i])
    {
      if node.Seen? {
        AddObservationErrAt(acc, path, i, spine);
        return Err(NotADict);
      }
      spine := spine + [node];
      DescendSnoc(acc, path[..i], path[i]);
      assert path[..i + 1] == path[..i] + [path[i]];
      node := Child(node, path[i]);
    }
    var last := |path| - 1;
    if node.Seen? {
      AddObservationErrAt(acc, path, last, spine);
      return Err(NotADict);
    }
    assert path[last..] == [path[last]];
    var sub := Put(node, path[last], Seen);
    var j := last;
    while j > 0
      invariant 0 <= j <= last
      invariant AddObservation(Descend(acc, path[..j]), path[j..]) == Ok(sub)
    {
      var n := spine[j - 1];
      DescendSnoc(acc, path[..j - 1], path[j - 1]);
      assert path[..j - 1] + [path[j - 1]] == path[..j];
      assert path[j - 1..][1..] == path[j..];
      sub := Put(n, path[j - 1], sub);
      j := j - 1;
    }
    assert path[..0] == [] && path[0..] == path;
    return Ok(sub);
  }

  lemma {:induction false} DescendSnoc(o: Obs, q: seq<string>, k: string)
    ensures Descend(o, q + [k]) == if Descend(o, q).Seen? then Seen else Child(Descend(o, q), k)
    decreases |q|
  {
    if q == [] {
      assert [k][1..] == [];
    } else if o.Node? {
      assert (q + [k])[1..] == q[1..] + [k];
      DescendSnoc(Child(o, q[0]), q[1..], k);
    }
  }

  /** The walk meets a `True` first at depth `i`: `add_observation` raises. */
  lemma {:induction false} AddObservationErrAt(acc: Obs, path: seq<string>, i: nat, spine: seq<Obs>)
    requires i < |path| && |spine| == i
    requires forall d | 0 <= d < i :: spine[d] == Descend(acc, path[..d]) && spine[d].Node?
    requires Descend(acc, path[..i]).Seen?
    ensures AddObservation(acc, path) == Err(NotADict)
    decreases i
  {
    if i == 0 {
      assert path[..0] == [];
    } else {
      assert spine[0] == Descend(acc, path[..0]) && path[..0] == [];
      var child := Child(acc, path[0]);
      var tail := path[1..];
      forall d | 0 <= d < i - 1
        ensures spine[1..][d] == Descend(child, tail[..d]) && spine[1..][d].Node?
      {
        assert path[..d + 1][1..] == tail[..d];
      }
      assert path[..i][1..] == tail[..i - 1];
      AddObservationErrAt(child, tail, i - 1, spine[1..]);
    }
  }

  /** The entry reached by following the keys of `q` from `o`, if any. */
  function Walk(o: Obs, q: seq<string>): Option<Obs>
  {
    if q == [] then Some(o)
    else if o.Seen? || q[0] !in o.children then None
    else Walk(o.children[q[0]], q[1..])
  }

  /** The key paths that end in a `True`. */
  ghost function Leaves(o: Obs): set<seq<string>>
  {
    match o
    case Seen => {[]}
    case Node(_, m) => set k, p | k in m && p in Leaves(m[k]) :: [k] + p
  }

  /** No dict below the root is empty: `add_observation` only creates a dict
      on the way to storing something in it. */
  ghost predicate Full(o: Obs)
  {
    match o
    case Seen => true
    case Node(_, m) =>
      forall k | k in m :: (m[k].Node? ==> m[k].children != map[]) && Full(m[k])
  }

  /** `b` is `a` with keys added and none removed or moved: every `True` stays
      `True`, every dict stays a dict, and a dict's old keys keep their order
      at the front of its insertion order. */
  ghost predicate Grows(a: Obs, b: Obs)
  {
    match a
    case Seen => b == Seen
    case Node(ks, m) =>
      && b.Node?
      && ks <= b.keys
      && forall k | k in m :: k in b.children && Grows(m[k], b.children[k])
  }

  /** Python's `==` on the nested dicts, which ignores insertion order. */
  ghost predicate Same(a: Obs, b: Obs)
  {
    match a
    case Seen => b == Seen
    case Node(_, m) =>
      && b.Node?
      && m.Keys == b.children.Keys
      && forall k | k in m :: Same(m[k], b.children[k])
  }

  lemma {:induction false} SameRefl(o: Obs)
    ensures Same(o, o)
  {
    match o
    case Seen =>
    case Node(_, m) =>
      forall k | k in m ensures Same(m[k], m[k]) {
        SameRefl(m[k]);
      }
  }

  /** Python's `==` on dicts ignores insertion order: two dicts holding the
      same entries are equal, whatever order their keys were added in. */
  lemma SameEntries(a: Obs, b: Obs)
    requires a.Node? && b.Node? && a.children == b.children
    ensures Same(a, b)
  {
    forall k | k in a.children ensures Same(a.children[k], b.children[k]) {
      SameRefl(a.children[k]);
    }
  }

  // ---------------------------------------------------------------------
  // Leaf paths

  lemma LeavesNode(o: Obs, q: seq<string>)
    requires o.Node?
    ensures q in Leaves(o) <==>
      |q| > 0 && q[0] in o.children && q[1..] in Leaves(o.children[q[0]])
  {
    if |q| > 0 && q[0] in o.children && q[1..] in Leaves(o.children[q[0]]) {
      assert q == [q[0]] + q[1..];
    }
  }

  /** A path is a leaf path exactly when walking it ends at a `True`. */
  lemma {:induction false} LeavesWalk(o: Obs, q: seq<string>)
    ensures q in Leaves(o) <==> Walk(o, q) == Some(Seen)
    decreases q
  {
    match o
    case Seen =>
    case Node(_, m) =>
      LeavesNode(o, q);
      if |q| > 0 && q[0] in m {
        LeavesWalk(m[q[0]], q[1..]);
      }
  }

  lemma LeavesPut(o: Obs, k: string, v: Obs, q: seq<string>)
    requires o.Node?
    ensures q in Leaves(Put(o, k, v)) <==>
      if |q| > 0 && q[0] == k then q[1..] in Leaves(v) else q in Leaves(o)
  {
    LeavesNode(o, q);
    LeavesNode(Put(o, k, v), q);
  }

  // ---------------------------------------------------------------------
  // add_observation

  /** `add_observation` raises exactly when the path is empty or its walk
      meets a `True` before the last key has been written. */
  lemma {:induction false} AddObservationFails(acc: Obs, path: seq<string>)
    ensures AddObservation(acc, path).Err? <==>
      |path| == 0 || exists i :: 0 <= i < |path| && Walk(acc, path[..i]) == Some(Seen)
    decreases path
  {
    if |path| == 0 || acc.Seen? {
      if acc.Seen? && |path| > 0 {
        assert Walk(acc, path[..0]) == Some(Seen);
      }
    } else if |path| == 1 {
      assert forall i :: 0 <= i < 1 ==> Walk(acc, path[..i]) == Some(acc);
    } else {
      var k := path[0];
      var child := if k in acc.children then acc.children[k] else Empty;
      AddObservationFails(child, path[1..]);
      if k in acc.children {
        forall i | 1 <= i < |path|
          ensures Walk(acc, path[..i]) == Walk(child, path[1..][..i - 1])
        {
          assert path[..i][1..] == path[1..][..i - 1];
        }
        if AddObservation(acc, path).Err? {
          var i :| 0 <= i < |path[1..]| && Walk(child, path[1..][..i]) == Some(Seen);
          assert Walk(acc, path[..i + 1]) == Some(Seen);
        }
      } else {
        AddObservationFreshOk(path[1..]);
        forall i | 0 <= i < |path|
          ensures Walk(acc, path[..i]) != Some(Seen)
        {
          if i > 0 {
            assert path[..i][0] == k;
          }
        }
      }
    }
  }

  /** Below a missing key the walk only meets fresh dicts and never fails. */
  lemma {:induction false} AddObservationFreshOk(path: seq<string>)
    ensures |path| > 0 ==> AddObservation(Empty, path).Ok?
    decreases path
  {
    if |path| > 1 {
      AddObservationFreshOk(path[1..]);
    }
  }

  /** After `add_observation(acc, path)`, walking `path[:-1]` reaches a dict
      whose entry for `path[-1]` is `True`. */
  lemma {:induction false} AddObservationReaches(acc: Obs, path: seq<string>)
    requires AddObservation(acc, path).Ok?
    ensures Walk(AddObservation(acc, path).value, path) == Some(Seen)
    decreases path
  {
    if |path| > 1 {
      var child := if path[0] in acc.children then acc.children[path[0]] else Empty;
      AddObservationReaches(child, path[1..]);
    }
  }

  /** Once the last key of `path` is `True`, `add_observation` changes nothing. */
  lemma {:induction false} AddObservationNoop(acc: Obs, path: seq<string>)
    requires Walk(acc, path) == Some(Seen) && |path| > 0
    ensures AddObservation(acc, path) == Ok(acc)
    decreases path
  {
    var m := acc.children;
    assert m[path[0] := m[path[0]]] == m;
    if |path| > 1 {
      AddObservationNoop(m[path[0]], path[1..]);
    }
  }

  /** When the last key of `path` does not hold a dict, `add_observation`
      only adds: no key is removed, no `True` becomes a dict and no dict
      becomes `True`, and old keys keep their order. */
  lemma {:induction false} AddObservationGrows(acc: Obs, path: seq<string>)
    requires AddObservation(acc, path).Ok?
    requires Walk(acc, path) != None ==> Walk(acc, path) == Some(Seen)
    ensures Grows(acc, AddObservation(acc, path).value)
    decreases path
  {
    GrowsRefl(acc);
    var r := AddObservation(acc, path).value;
    var k := path[0];
    assert k in acc.children ==> Walk(acc, path) == Walk(acc.children[k], path[1..]);
    if |path| == 1 {
      assert k in acc.children ==> acc.children[k] == Seen;
    } else if k in acc.children {
      AddObservationGrows(acc.children[k], path[1..]);
    }
    assert forall k' | k' in acc.children && k' != k :: r.children[k'] == acc.children[k'];
  }

  lemma {:induction false} GrowsRefl(o: Obs)
    ensures Grows(o, o)
  {
    match o
    case Seen =>
    case Node(_, m) =>
      forall k | k in m ensures Grows(m[k], m[k]) {
        GrowsRefl(m[k]);
      }
  }

  /** Under the same condition the leaf paths grow by exactly `path`. */
  lemma {:induction false} AddObservationLeaves(acc: Obs, path: seq<string>)
    requires AddObservation(acc, path).Ok?
    requires Walk(acc, path) != None ==> Walk(acc, path) == Some(Seen)
    ensures Leaves(AddObservation(acc, path).value) == Leaves(acc) + {path}
    decreases path
  {
    var r := AddObservation(acc, path).value;
    var k := path[0];
    var child := if k in acc.children then acc.children[k] else Empty;
    var sub := if |path| == 1 then Seen else AddObservation(child, path[1..]).value;
    assert r == Put(acc, k, sub);
    assert k in acc.children ==> Walk(acc, path) == Walk(child, path[1..]);
    if |path| > 1 {
      AddObservationLeaves(child, path[1..]);
    }
    forall q ensures q in Leaves(r) <==> q in Leaves(acc) + {path} {
      LeavesPut(acc, k, sub, q);
      LeavesNode(acc, q);
      if |q| > 0 && q[0] == k {
        assert q == path <==> q[1..] == path[1..];
        if |path| == 1 && k in acc.children {
          assert Leaves(acc.children[k]) == {[]};
        }
      }
    }
  }

  /** `add_observation` never leaves an empty dict behind. */
  lemma {:induction false} AddObservationFull(acc: Obs, path: seq<string>)
    requires Full(acc)
    requires AddObservation(acc, path).Ok?
    ensures Full(AddObservation(acc, path).value)
    ensures AddObservation(acc, path).value.Node?
    ensures acc.Node? && acc.children != map[] ==> AddObservation(acc, path).value.children != map[]
    decreases path
  {
    if |path| > 1 {
      var child := if path[0] in acc.children then acc.children[path[0]] else Empty;
      AddObservationFull(child, path[1..]);
    }
  }

  /** `add_observation` keeps every dict's insertion order duplicate-free
      and complete. */
  lemma {:induction false} AddObservationValid(acc: Obs, path: seq<string>)
    requires Valid(acc)
    requires AddObservation(acc, path).Ok?
    ensures Valid(AddObservation(acc, path).value)
    decreases path
  {
    var k := path[0];
    var child := if k in acc.children then acc.children[k] else Empty;
    var sub := if |path| == 1 then Seen else AddObservation(child, path[1..]).value;
    if |path| > 1 {
      AddObservationValid(child, path[1..]);
    }
    PutValid(acc, k, sub);
  }

  lemma PutValid(o: Obs, k: string, v: Obs)
    requires Valid(o) && o.Node? && Valid(v)
    ensures Valid(Put(o, k, v))
  {
    var r := Put(o, k, v);
    if k !in o.children {
      forall i, j | 0 <= i < j < |r.keys| ensures r.keys[i] != r.keys[j] {
        if j == |o.keys| {
          assert r.keys[i] in o.children;
        }
      }
    }
  }

  // ---------------------------------------------------------------------
  // Leaf paths determine the tree up to insertion order

  lemma {:induction false} FullHasLeaf(o: Obs) returns (p: seq<string>)
    requires Full(o)
    requires o.Node? ==> o.children != map[]
    ensures p in Leaves(o)
  {
    match o
    case Seen => p := [];
    case Node(_, m) =>
      var k :| k in m;
      var p' := FullHasLeaf(m[k]);
      p := [k] + p';
      LeavesNode(o, p);
  }

  /** Two trees without empty inner dicts and with the same leaf paths are
      equal as Python compares dicts. */
  lemma {:induction false} LeavesDetermine(a: Obs, b: Obs)
    requires Full(a) && Full(b)
    requires Leaves(a) == Leaves(b)
    ensures Same(a, b)
  {
    assert [] in Leaves(a) <==> a.Seen? by {
      if a.Node? { LeavesNode(a, []); }
    }
    assert [] in Leaves(b) <==> b.Seen? by {
      if b.Node? { LeavesNode(b, []); }
    }
    match a
    case Seen =>
    case Node(_, m) =>
      var n := b.children;
      forall k | k in m ensures k in n {
        var p := FullHasLeaf(m[k]);
        LeavesNode(a, [k] + p);
        LeavesNode(b, [k] + p);
      }
      forall k | k in n ensures k in m {
        var p := FullHasLeaf(n[k]);
        LeavesNode(a, [k] + p);
        LeavesNode(b, [k] + p);
      }
      forall k | k in m ensures Same(m[k], n[k]) {
        forall p ensures p in Leaves(m[k]) <==> p in Leaves(n[k]) {
          LeavesNode(a, [k] + p);
          LeavesNode(b, [k] + p);
          assert ([k] + p)[1..] == p;
        }
        LeavesDetermine(m[k], n[k]);
      }
  }
}
