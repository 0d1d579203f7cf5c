# singer-tools core, modelled in Dafny

singer-tools is a set of command-line helpers for Singer taps and targets. This
project models three of them and proves properties of the model:

- **Schema inference** (`singertools/infer_schema.py`). Every `RECORD` line
  of a Singer stream is folded into an *observation tree*. This is a trie of
  nested dicts whose keys alternate between type kinds (`object`, `array`,
  `date`, `string`, `boolean`, `integer`, `number`, `null`) and field names,
  with `True` at the leaves. Each stream's tree then becomes a JSON Schema.
  Modules: `ObservationTree` (the tree and `add_observation`), `InferSchema`
  (`add_observations`), `SchemaSynthesis` (`to_json_schema`) and
  `InferStreams` (the per-stream loop of `infer_schemas`).
- **Field-path analysis** (`singertools/analyze_record_fields.py`), module
  `RecordFields`. It lists the `/`-joined key paths of a record and counts
  them by their leading segments.
- **Tap output summary** (`singertools/check_tap.py`), module `CheckTap`. It
  counts record and schema messages per stream, and state messages overall,
  in objects updated in place.

`Wrappers` holds `Option` and `Result`. `JsonValues` holds the decoded JSON
value. A JSON object is a sequence of members in dict order, and `Lookup` is
`obj[name]`.

A few properties one might expect of these tools do not hold of the code.
The model follows the code:

- The type list of a schema is not deduplicated. A value seen both as a
  date-time string and as a plain string gets `["null", "string", "string"]`
  (`SchemaSynthesis.DateAndStringRepeatString`).
- The *tree* does not depend on the order or repetition of a stream's
  records, as long as Python's `==` is the comparison
  (`InferSchema.ObserveRecordsOrderFree`). The *schema* does depend on it,
  for two reasons. `format` is last-write-wins
  (`SchemaSynthesis.FormatDependsOnRecordOrder`). The `type` list follows the
  order in which kinds were first seen, and Python compares lists in order:
  `{"x": 1}` then `{"x": "s"}` gives `["null", "integer", "string"]`, and the
  reverse order gives `["null", "string", "integer"]`
  (`SchemaSynthesis.TypesDependOnRecordOrder`).
- A path from `get_paths_from_rec` always starts with `prefix + "/"`, but it
  is not always longer than that. The key `""` has exactly that path
  (`RecordFields.EmptyKeyPath`).
- `tests/test_infer.py` calls an older interface: a global `OBSERVED_TYPES`
  and a two-argument `add_observations`. The model follows
  `infer_schema.py` as it is.

In the inference modules, the nested dicts that Python changes in place are
values. `add_observation`, `add_observations` and the `infer_schemas` loop
are methods with the source's loops, each proved equal to a function:
`ObservationTree.AddObservationWalk`, `InferSchema.AddObservations` and
`InferStreams.InferSchemas`. The properties are then proved about those
functions. The check_tap summary is a class whose
accumulators are separate objects updated in place.

## Model

| member | source | states |
|---|---|---|
| ObservationTree.Put | singertools/infer_schema.py:16 | `node[k] = v` on a dict value: the entry for `k` becomes `v`; a new key goes to the end of the insertion order, an existing one keeps its place (properties in `PutValid` and `LeavesPut`) |
| ObservationTree.AddObservation | singertools/infer_schema.py:10-19 | `add_observation(acc, path)` as the tree it returns, or the error it raises: `IndexError` for an empty path, and a bool used as a dict where a prefix of the path ends at `True` (properties from `AddObservationFails` to `AddObservationValid`) |
| ObservationTree.AddObservationWalk | singertools/infer_schema.py:10-19 | the loop moving `node` down `path[:-1]` (creating `{}` for missing keys) and then writing `True` gives exactly `AddObservation`: the same tree, or the same error |
| ObservationTree.DescendSnoc | singertools/infer_schema.py:13-17 | one more loop turn moves `node` to its entry for the next key, or to a fresh `{}` when the key is missing |
| ObservationTree.AddObservationErrAt | singertools/infer_schema.py:13-19 | if the walk first meets a `True` at some depth, `add_observation` raises |
| ObservationTree.AddObservationFails | singertools/infer_schema.py:10-19 | `add_observation` raises exactly when the path is empty (`path[-1]`) or some proper prefix of the path reaches a `True` (a bool is used as a dict) |
| ObservationTree.AddObservationFreshOk | singertools/infer_schema.py:12-19 | on a fresh `{}`, every non-empty path succeeds |
| ObservationTree.AddObservationReaches | singertools/infer_schema.py:13-19 | after success, walking the path through the new tree ends at `True` |
| ObservationTree.AddObservationNoop | singertools/infer_schema.py:13-19 | adding a path that already ends at `True` gives back the same tree: repeated observations are no-ops |
| ObservationTree.AddObservationGrows | singertools/infer_schema.py:13-19 | when the last key of the path does not already hold a dict (line 19 would replace that dict with `True`): existing keys keep their place in every dict's insertion order, new keys are appended after them, and no `True` or dict changes kind |
| ObservationTree.AddObservationLeaves | singertools/infer_schema.py:10-19 | under the same condition (the last key does not already hold a dict), the set of paths ending at `True` grows by exactly the inserted path |
| ObservationTree.AddObservationFull | singertools/infer_schema.py:15-19 | no empty inner dict is ever left behind |
| ObservationTree.AddObservationValid | singertools/infer_schema.py:15-19 | every dict still lists each key once, in insertion order |
| ObservationTree.PutValid | singertools/infer_schema.py:16 | `node[k] = v` keeps a dict's keys distinct and in step with its entries |
| ObservationTree.LeavesNode | singertools/infer_schema.py:10-19 | the leaf paths of a dict are its keys, each prefixed to the leaf paths of its value |
| ObservationTree.LeavesWalk | singertools/infer_schema.py:13-19 | a path is a leaf path exactly when walking it ends at `True` |
| ObservationTree.LeavesPut | singertools/infer_schema.py:16-19 | the leaf paths after `node[k] = v`: those of the other keys, plus `k` before the leaf paths of `v` |
| ObservationTree.FullHasLeaf | singertools/infer_schema.py:10-19 | a tree with no empty inner dict has at least one leaf path |
| ObservationTree.SameRefl | singertools/infer_schema.py:10-19 | every tree is equal to itself under Python's dict `==` |
| ObservationTree.SameEntries | singertools/infer_schema.py:10-19 | two dicts with the same entries are equal under Python's dict `==`, whatever order their keys were inserted in |
| ObservationTree.LeavesDetermine | singertools/infer_schema.py:10-19 | two trees with no empty inner dicts and the same leaf paths are equal under Python's dict `==` |
| InferSchema.Observe | singertools/infer_schema.py:22-52 | `add_observations(acc, path, data)` as the tree it leaves, or its error: a dict or a list is handed to the member or item loop, a scalar adds `path + [kind]`, and anything else raises (properties in `ObserveWellFormed`, `ObserveNoop` and `ObserveIdempotent`) |
| InferSchema.ObserveMembers | singertools/infer_schema.py:23-25 | the first `n` turns of `for key in data`, each observing the member's value under `path + ["object", key]`, stopping at the first error (properties in `MembersWellFormed` and `MembersErrSticks`) |
| InferSchema.ObserveItems | singertools/infer_schema.py:26-28 | the first `n` turns of `for item in data`, each observing the item under `path + ["array"]`, stopping at the first error (properties in `ItemsWellFormed` and `ItemsErrSticks`) |
| InferSchema.KindOf | singertools/infer_schema.py:29-48 | the kind key of a scalar: `date` exactly for strings that parse as ISO dates, `string` for other strings, then `boolean`, `integer`, `number`, `null`; bools are not counted as integers |
| InferSchema.AddObservations | singertools/infer_schema.py:22-52 | the recursive loop over members and items gives exactly the tree the fold function `Observe` describes, and raises where it raises |
| InferSchema.MembersErrSticks | singertools/infer_schema.py:23-25 | once one member raises, the rest of the loop is not reached |
| InferSchema.ItemsErrSticks | singertools/infer_schema.py:26-28 | once one item raises, the rest of the loop is not reached |
| InferSchema.ObserveWellFormed | singertools/infer_schema.py:22-52 | `add_observations` raises exactly when the value contains something that is not JSON (line 50). Otherwise the tree stays well formed, old keys keep their order, and the new leaf paths are exactly the value's own paths |
| InferSchema.MembersWellFormed | singertools/infer_schema.py:23-25 | the same for the loop over a dict's members, each under `path + ["object", key]` |
| InferSchema.ItemsWellFormed | singertools/infer_schema.py:26-28 | the same for the loop over a list's items, all under `path + ["array"]` with no index |
| InferSchema.InsertKinds | singertools/infer_schema.py:10-19 | inserting a kind path into a kind-map never raises and keeps it a kind-map |
| InferSchema.InsertFields | singertools/infer_schema.py:10-19 | inserting into a field-map never raises and keeps it a field-map |
| InferSchema.StepsAppend | singertools/infer_schema.py:25-28 | paths built from `object`/field and `array` steps stay such paths when joined |
| InferSchema.StepsThenKind | singertools/infer_schema.py:37-48 | such a path followed by a terminal kind is a kind path |
| InferSchema.StepsGrow | singertools/infer_schema.py:25-28 | each recursive call's path extends the caller's path by one step |
| InferSchema.GrowsTrans | singertools/infer_schema.py:22-52 | keeping the key order is transitive across successive calls |
| InferSchema.ObserveNoop | singertools/infer_schema.py:22-52 | a value whose paths are all in the tree already leaves the tree unchanged |
| InferSchema.MembersNoop | singertools/infer_schema.py:23-25 | the same for the member loop |
| InferSchema.ItemsNoop | singertools/infer_schema.py:26-28 | the same for the item loop |
| InferSchema.EmptyContainersRecordNothing | singertools/infer_schema.py:23-28 | an empty dict or an empty list leaves the tree unchanged and has no paths |
| InferSchema.ObserveIdempotent | singertools/infer_schema.py:22-52 | observing the same value twice gives the same tree as observing it once |
| InferSchema.ObserveRecordsLeaves | singertools/infer_schema.py:103-109 | over a sequence of records: success exactly when every record is JSON, and the leaf paths are the union of the records' paths |
| InferSchema.ObserveRecordsOrderFree | singertools/infer_schema.py:103-109 | two record sequences with the same set of elements give trees equal under Python's `==`: order and repetition do not matter |
| InferSchema.RecordPathsOfSet | singertools/infer_schema.py:103-109 | the paths of a record sequence depend only on the set of records |
| SchemaSynthesis.ToJsonSchema | singertools/infer_schema.py:54-93 | `to_json_schema(obs)` as the schema it returns, or the error for a key that is no kind; `True` gives an error too, since the loop cannot iterate a bool (properties in `SchemaShape`, `SchemaOfWellFormed` and `UnknownKeyRaises`) |
| SchemaSynthesis.SchemaFrom | singertools/infer_schema.py:55-91 | the schema after the first `n` turns of `for key in obs` (properties in `SchemaFromTypes`, `SchemaFromProperties`, `SchemaFromItems` and `SchemaFromFormat`) |
| SchemaSynthesis.PropsFrom | singertools/infer_schema.py:61-64 | the `properties` dict after the first `n` field names of `obs['object']`, each mapped to its subtree's schema (properties in `PropsFromShape` and `PropsFromOk`) |
| SchemaSynthesis.SchemaShape | singertools/infer_schema.py:54-93 | a successful schema: every key is a kind; `type` is `null` followed by one entry per non-`null` key in key order (`date` and `number` give `string`); `properties` exists exactly when there is an `object` key, with the field names in order and each field's schema that of its subtree; `items` exists exactly when there is an `array` key, with the schema of that subtree; `format` is that of the last `date`/`number` key |
| SchemaSynthesis.SchemaFromTypes | singertools/infer_schema.py:55-88 | the type list after the first `n` keys |
| SchemaSynthesis.SchemaStepTypes | singertools/infer_schema.py:59-88 | each key appends exactly its own type name, or nothing for `null` |
| SchemaSynthesis.SchemaFromProperties | singertools/infer_schema.py:59-64 | `properties` is set by the `object` key alone, from the field-map's keys in order |
| SchemaSynthesis.SchemaFromItems | singertools/infer_schema.py:66-68 | `items` is set by the `array` key alone |
| SchemaSynthesis.SchemaFromFormat | singertools/infer_schema.py:70-85 | `format` is last-write-wins between `date` and `number` |
| SchemaSynthesis.PropsFromShape | singertools/infer_schema.py:62-64 | the properties dict has exactly the field names, in order, each mapped to the schema of its subtree |
| SchemaSynthesis.EmittedTypesAppend | singertools/infer_schema.py:59-88 | the reference type list grows by one key's type name at a time |
| SchemaSynthesis.UnknownKeyRaises | singertools/infer_schema.py:90-91 | a key that is no kind makes `to_json_schema` raise |
| SchemaSynthesis.SchemaOfWellFormed | singertools/infer_schema.py:54-93 | `to_json_schema` never raises on a tree `add_observations` can build |
| SchemaSynthesis.SchemaFromOk | singertools/infer_schema.py:57-91 | the same, key by key |
| SchemaSynthesis.PropsFromOk | singertools/infer_schema.py:63-64 | the same, field by field |
| SchemaSynthesis.DateThenStringTree | singertools/infer_schema.py:29-39 | a date-time string followed by a plain string gives the kind-map `{date: True, string: True}` in that order |
| SchemaSynthesis.DateAndStringRepeatString | singertools/infer_schema.py:70-74 | that kind-map's schema is `{"type": ["null", "string", "string"], "format": "date-time"}`: the type list repeats `string` |
| SchemaSynthesis.FormatDependsOnRecordOrder | singertools/infer_schema.py:70-85 | `{"x": 1.5}` then `{"x": <date>}` and the reverse order give equal trees, but the field's format is `date-time` in one order and `singer.decimal` in the other |
| SchemaSynthesis.TwoRecordsTree | singertools/infer_schema.py:22-52 | two one-field records of different kinds list the kinds under the field in arrival order |
| SchemaSynthesis.FieldStep | singertools/infer_schema.py:23-25 | one one-field record adds its kind to that field's kind-map |
| SchemaSynthesis.PairSame | singertools/infer_schema.py:10-19 | a worked case: the one-field trees whose field `x` has the kinds `k1` then `k2`, or `k2` then `k1`, are equal under Python's `==` (the general fact is `ObservationTree.SameEntries`) |
| SchemaSynthesis.PairFormat | singertools/infer_schema.py:70-85 | a field's format follows the later of its two kinds |
| SchemaSynthesis.KindsFormat | singertools/infer_schema.py:62-85 | in the schema of any kind-map, any field's `format` is the one its own kind-map gives: that of its last `date` or `number` kind |
| InferStreams.Field | singertools/infer_schema.py:105-109 | `rec[name]` on a decoded line: the member's value, `KeyError` when it is missing, and an error when the line is not a dict |
| InferStreams.AccumulateLine | singertools/infer_schema.py:104-109 | one turn of `for line in record_inputs` on the `streams` dict, as the new dict or the error the turn raises (properties in `AccumulateLineEffect`) |
| InferStreams.AccumulateAll | singertools/infer_schema.py:101-109 | the `streams` dict after all lines, or the first error (properties in `AccumulateAllShape`, `AccumulateErrSticks`, `StreamIsolation` and `StreamTreeOrderFree`) |
| SchemaSynthesis.KindsTypes | singertools/infer_schema.py:57-88 | in the schema of any kind-map, any field's `type` list is `null` followed by one type per kind of its own kind-map, in that kind-map's order |
| SchemaSynthesis.PairTypes | singertools/infer_schema.py:57-88 | a field with the two non-`null` kinds `k1` then `k2` has the type list `["null", k1's type, k2's type]` |
| SchemaSynthesis.TypesDependOnRecordOrder | singertools/infer_schema.py:57-88 | two one-field records whose kinds have different type names (`{"x": 1}` and `{"x": "s"}`, say) give equal trees in either order, but type lists in opposite orders, which Python's list `==` tells apart |
| InferStreams.InferSchemas | singertools/infer_schema.py:101-121 | the loop over lines raises exactly when the fold `AccumulateAll` does, with the same error. Otherwise it yields one schema per stream, in first-appearance order, each that stream's `to_json_schema` |
| InferStreams.AddLine | singertools/infer_schema.py:104-109 | one line's effect on the `streams` dict, including the lookups of `type`, `stream` and `record` and the unhashable-stream error |
| InferStreams.EmitSchemas | singertools/infer_schema.py:111-121 | the schema of every stream's tree, in `streams.items()` order, none of which raises |
| InferStreams.AccumulateErrSticks | singertools/infer_schema.py:103-109 | once a line raises, later lines are not reached |
| InferStreams.AccumulateLineEffect | singertools/infer_schema.py:104-109 | one line fails exactly when the source raises. A non-`RECORD` line changes nothing. A record changes its own stream's tree and no other. A new stream starts at `{}` and is appended to the order |
| InferStreams.AccumulateAllShape | singertools/infer_schema.py:101-109 | the whole input: success exactly when every line is acceptable. The dict then holds exactly the streams that had a record, in a distinct insertion order, and each tree is what that stream's own records build from `{}` |
| InferStreams.StreamIsolation | singertools/infer_schema.py:105-109 | a stream's tree depends only on that stream's records, not on other streams' lines or on non-`RECORD` lines |
| InferStreams.StreamTreeOrderFree | singertools/infer_schema.py:103-109 | reordering or repeating one stream's records gives a tree equal under Python's `==` |
| InferStreams.EveryStreamHasSchema | singertools/infer_schema.py:111-121 | `to_json_schema` does not raise on any stream's tree |
| InferStreams.EmptyWellFormed | singertools/infer_schema.py:108 | the fresh `{}` is a well-formed tree |
| RecordFields.GetPathsFromRec | singertools/analyze_record_fields.py:12-23 | the key loop, the list loop and the recursion together return exactly the set of key paths `FieldPaths` defines |
| RecordFields.MemberPathsStep | singertools/analyze_record_fields.py:14-22 | each key adds its own path and the paths below it |
| RecordFields.ItemPathsStep | singertools/analyze_record_fields.py:20-22 | each dict element of a list adds its paths under the key's path; other elements add nothing |
| RecordFields.KeyPathIn | singertools/analyze_record_fields.py:14-16 | `path_to_rec + "/" + key` is in the result for every key |
| RecordFields.NestedPathsIn | singertools/analyze_record_fields.py:17-22 | a dict value's paths, and those of every dict element of a list value, are included under the key's path with no index segment |
| RecordFields.FlatRecordPaths | singertools/analyze_record_fields.py:14-22 | a record with no nested dicts has exactly one path per key |
| RecordFields.PathsExtendPrefix | singertools/analyze_record_fields.py:15 | every path starts with `path_to_rec + "/"` |
| RecordFields.KeyPathsExtend | singertools/analyze_record_fields.py:15-22 | every path below a key starts with that key's path |
| RecordFields.EmptyKeyPath | singertools/analyze_record_fields.py:15 | the empty key gives exactly `path_to_rec + "/"`, so paths do not always extend it strictly |
| RecordFields.Join | singertools/analyze_record_fields.py:28 | `'/'.join(parts)`, the inverse of `Split` (stated by `JoinSplit` and `SplitJoin`) |
| RecordFields.Split | singertools/analyze_record_fields.py:26 | `str.split('/')` returns at least one segment, and no segment contains `/` |
| RecordFields.JoinSplit | singertools/analyze_record_fields.py:26-28 | `'/'.join(s.split('/')) == s` |
| RecordFields.SplitJoin | singertools/analyze_record_fields.py:26-28 | `'/'.join(parts).split('/') == parts` for non-empty parts without `/` |
| RecordFields.SplitNoSlash | singertools/analyze_record_fields.py:26 | a string without `/` splits into itself |
| RecordFields.SplitAppend | singertools/analyze_record_fields.py:26 | splitting `a + "/" + b` gives `a` followed by the split of `b` |
| RecordFields.Selected | singertools/analyze_record_fields.py:26-27 | `nested_fields`: the paths with more than `level` segments, as a set because the input is a set of distinct paths |
| RecordFields.LevelKey | singertools/analyze_record_fields.py:28 | `'/'.join(f.split('/')[1:level + 1])` for one selected path |
| RecordFields.GetCounts | singertools/analyze_record_fields.py:25-29 | `get_counts(unique_fields, level)`: each level key of a selected path is mapped to the number of selected paths that have it (properties in `GetCountsKeys`, `CountsSum`, `LevelZero` and `DeeperCountsFewer`) |
| RecordFields.GetCountsKeys | singertools/analyze_record_fields.py:26-29 | the keys of `get_counts` are exactly the level keys of the paths with more than `level` segments, and every count is at least 1 |
| RecordFields.CountsSum | singertools/analyze_record_fields.py:26-29 | the counts add up to the number of paths with more than `level` segments |
| RecordFields.SumOverFibers | singertools/analyze_record_fields.py:29 | summing the counts of a set of keys counts the paths with those keys |
| RecordFields.KeyedBySplit | singertools/analyze_record_fields.py:29 | the paths of different keys are disjoint |
| RecordFields.LevelZero | singertools/analyze_record_fields.py:28-43 | for a non-empty set, `get_counts(u, 0) == {"": len(u)}`, which is what "Total Fields" prints |
| RecordFields.DeeperCountsFewer | singertools/analyze_record_fields.py:27 | the total count at `level + 1` is at most the total at `level` |
| RecordFields.SubsetCard | singertools/analyze_record_fields.py:27 | helper for `DeeperCountsFewer`: a subset of a finite set has no larger size |
| CheckTap.StreamAcc.constructor | singertools/check_tap.py:11-16 | a new accumulator has its name and zero counts |
| CheckTap.StreamAcc.Increment | singertools/check_tap.py:32-35 | `num_records += 1` or `num_schemas += 1`, and the other counter is unchanged |
| CheckTap.OutputSummary.constructor | singertools/check_tap.py:20-23 | a new summary has no streams, no states, and no latest state |
| CheckTap.OutputSummary.EnsureStream | singertools/check_tap.py:25-28 | returns the stream's accumulator. A missing stream gets a fresh one with zero counts, appended to the order. An existing one is returned as it is, and no other entry changes |
| CheckTap.OutputSummary.Add | singertools/check_tap.py:30-39 | the summary's new state is `Step` of its old state and the message, and the footprint stays valid |
| CheckTap.OutputSummary.CountOne | singertools/check_tap.py:31-35 | `ensure_stream(s).num_records += 1` (or `num_schemas`) changes exactly that counter of that stream |
| CheckTap.SummarizeOutput | singertools/check_tap.py:51-55 | the loop calling `add` leaves a fresh summary whose state is `Summarize(ms)`. Its `num_records()`, `num_schemas()` and `num_messages()` count the record messages, the schema messages, and all but the ignored messages |
| CheckTap.OutputSummary.NumRecords | singertools/check_tap.py:41-42 | `num_records()`: the sum of `num_records` over the streams, as read from the summary's state (properties in `SummarizeOutput` and `SummarizeTotals`) |
| CheckTap.OutputSummary.NumSchemas | singertools/check_tap.py:44-45 | `num_schemas()`: the sum of `num_schemas` over the streams (properties in `SummarizeOutput` and `SummarizeTotals`) |
| CheckTap.OutputSummary.NumMessages | singertools/check_tap.py:47-48 | `num_messages()`: the record total plus the schema total plus `num_states` (properties in `SummarizeOutput` and `SummarizeTotals`) |
| CheckTap.Ensure | singertools/check_tap.py:25-28 | `ensure_stream(s)` on the summary's value: a missing stream gets zero counts and goes to the end of the order (properties in `EnsureTotals`) |
| CheckTap.Step | singertools/check_tap.py:30-39 | `add(m)` on the summary's value (properties in `StepFrame` and `StepTotals`) |
| CheckTap.Summarize | singertools/check_tap.py:51-55 | `summarize_output(ms)` on the value: `add` applied to each message in turn from an empty summary (properties in `SummarizeStream`, `SummarizeTotals` and `SummarizeLatestState`) |
| CheckTap.SumOf | singertools/check_tap.py:41-45 | `sum(...)` of one counter over the streams in insertion order (properties in `SumOfUpdate` and `SumOfAppend`) |
| CheckTap.StepFrame | singertools/check_tap.py:25-39 | a record or schema message for `s` increments exactly that counter of `s`, starting from zero for a new stream, and changes no other stream. A state message bumps `num_states`, sets `latest_state` and creates no stream. Any other message changes nothing |
| CheckTap.StepTotals | singertools/check_tap.py:30-48 | one message raises the total of its own kind by one and no other total |
| CheckTap.EnsureTotals | singertools/check_tap.py:25-45 | `ensure_stream` adds nothing to the totals and keeps the order free of repeats |
| CheckTap.BumpTotals | singertools/check_tap.py:31-45 | incrementing one counter raises that counter's total by one |
| CheckTap.SumOfUpdate | singertools/check_tap.py:41-45 | replacing one stream's counters changes the sum over `streams.values()` by the difference |
| CheckTap.SumOfAppend | singertools/check_tap.py:41-45 | a new stream adds its own counter to the sum |
| CheckTap.AppendFresh | singertools/check_tap.py:27 | appending a new stream keeps the insertion order free of repeats |
| CheckTap.CountKindAppend | singertools/check_tap.py:51-55 | the reference message count grows by one per message of that kind |
| CheckTap.SummarizeTotals | singertools/check_tap.py:41-55 | after the whole output, `num_records()`, `num_schemas()` and `num_states` equal the numbers of record, schema and state messages, and `num_messages()` is the number of messages minus the ignored ones |
| CheckTap.KindsPartition | singertools/check_tap.py:30-39 | every message is exactly one of record, schema, state or other |
| CheckTap.SummarizeStream | singertools/check_tap.py:25-55 | a stream is in the summary exactly when some record or schema message names it. Its counters are the numbers of record and schema messages for it |
| CheckTap.SummarizeLatestState | singertools/check_tap.py:37-55 | `latest_state` is unset exactly when there was no state message, and otherwise holds the value of the last one |
| JsonValues.Lookup | singertools/infer_schema.py:105-109 | `obj[name]` is found exactly when some member has that name, and is that member's value |

## Left out

- Aliasing of nested dicts in the observation tree: the tree is a value. The source creates each inner `{}` fresh and stores it under one key, so no two keys share a dict, and nothing observable depends on sharing.
- When `add_observations` raises part-way, the source has already changed the tree. The model returns only the error; `infer_schemas` stops at the first error, so the partial tree is never used.
- `dateutil.parser.isoparse` is the parameter `isDate`. Its date grammar is not modelled. Its result is always truthy, so `isDate(s)` is simply "parses".
- `json.loads` and `json.dumps`: the model starts from decoded values. JSON objects are taken to have distinct member names, as a decoded dict does, and `Lookup` returns the first match. Floats are reals and integers are unbounded.
- Python's key equivalence `1 == 1.0 == True` in dict keys (stream names, dict keys) is not modelled. JSON values compare structurally.
- The key order of schema fragments other than `properties` (the dict order of `type`, `properties`, `items` and `format`) is not modelled. `Schema` is a record with those four fields.
- The file and console output of `infer_schemas` (lines 111-121: `os.makedirs`, the file names, `print`): `EmitSchemas` computes the schemas in output order, and the writing is left out.
- `main` and argument parsing in all three programs, and `print_summary` in `check_tap.py` and `analyze_record_fields.py`: console formatting only.
- The `main` loop of `analyze_record_fields.py`, which unions the paths of every `RECORD` line. A top-level record that is not a dict makes `rec.keys()` raise, and `GetPathsFromRec` requires a dict instead.
- `singer.parse_message` and `subprocess.check_output` in `check_tap.py`: messages arrive already parsed as `Message`.
- `StreamAcc.latest_schema` (check_tap.py:16) is never assigned by the source and is not modelled.
- The shared mutable default `streams = attr.ib(default={})` (check_tap.py:22): each summary gets its own dict.
- `release.py` and `diff_jsonl.py` are not part of this model.
