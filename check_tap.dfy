/** The message summary of singertools/check_tap.py: per-stream counts of
    record and schema messages, and a count of state messages, accumulated
    in place over a tap's output. */
module CheckTap {
  import opened Wrappers
  import opened JsonValues

  /** The messages `singer.parse_message` can return, reduced to what the
      summary looks at. */
  datatype Message =
    | RecordMessage(stream: string)
    | SchemaMessage(stream: string)
    | StateMessage(value: Json)
    | OtherMessage                    // e.g. ACTIVATE_VERSION: not counted

  /** `StreamAcc`: one stream's counters. */
  class StreamAcc {
    const name: string
    var numRecords: nat
    var numSchemas: nat

    constructor(name: string)
      ensures this.name == name && numRecords == 0 && numSchemas == 0
    {
      this.name := name;
      numRecords := 0;
      numSchemas := 0;
    }

    method Increment(k: Counter)
      modifies this
      ensures numRecords == old(numRecords) + (if k == Records then 1 else 0)
      ensures numSchemas == old(numSchemas) + (if k == Schemas then 1 else 0)
    {
      match k
      case Records => numRecords := numRecords + 1;
      case Schemas => numSchemas := numSchemas + 1;
    }
  }

  // ---------------------------------------------------------------------
  // The summary as a value

  datatype Counts = Counts(records: nat, schemas: nat)

  /** What an `OutputSummary` holds: the streams in insertion order with
      their counters, the state count, and the latest state (`None` while
      the `latest_state` attribute has not been set). */
  datatype SummaryView = SummaryView(
    order: seq<string>,
    counts: map<string, Counts>,
    numStates: nat,
    latestState: Option<Json>)

  const Start := SummaryView([], map[], 0, None)

  /** `ensure_stream(s)` on the value. */
  function Ensure(v: SummaryView, s: string): SummaryView
  {
    if s in v.counts then v
    else v.(order := v.order + [s], counts := v.counts[s := Counts(0, 0)])
  }

  /** `acc.num_records += 1` or `acc.num_schemas += 1` on stream `s`. */
  function Bump(v: SummaryView, s: string, k: Counter): SummaryView
    requires s in v.counts
  {
    v.(counts := v.counts[s := Inc(v.counts[s], k)])
  }

  function Inc(c: Counts, k: Counter): Counts
  {
    match k
    case Records => c.(records := c.records + 1)
    case Schemas => c.(schemas := c.schemas + 1)
  }

  /** `add(m)` on the value. */
  function Step(v: SummaryView, m: Message): SummaryView
  {
    match m
    case RecordMessage(s) => Bump(Ensure(v, s), s, Records)
    case SchemaMessage(s) => Bump(Ensure(v, s), s, Schemas)
    case StateMessage(x) => v.(numStates := v.numStates + 1, latestState := Some(x))
    case OtherMessage => v
  }

  /** `summarize_output(ms)` on the value. */
  function Summarize(ms: seq<Message>): SummaryView
    decreases |ms|
  {
    if ms == [] then Start
    else Step(Summarize(ms[..|ms| - 1]), ms[|ms| - 1])
  }

  /** The insertion order lists every stream exactly once. */
  ghost predicate ViewOk(v: SummaryView)
  {
    && (forall i, j | 0 <= i < j < |v.order| :: v.order[i] != v.order[j])
    && (forall s :: s in v.counts <==> s in v.order)
  }

  /** The two counters of a `StreamAcc`. */
  datatype Counter = Records | Schemas

  function Get(c: Counts, k: Counter): nat
  {
    match k
    case Records => c.records
    case Schemas => c.schemas
  }

  /** `sum([stream.num_records for stream in streams.values()])`, and the
      same for `num_schemas`. */
  function SumOf(order: seq<string>, counts: map<string, Counts>, k: Counter): nat
    requires forall s | s in order :: s in counts
  {
    if order == [] then 0
    else SumOf(order[..|order| - 1], counts, k) + Get(counts[order[|order| - 1]], k)
  }

  /** `num_records()` of a summary. */
  function RecordsTotal(v: SummaryView): nat
    requires ViewOk(v)
  {
    SumOf(v.order, v.counts, Records)
  }

  /** `num_schemas()` of a summary. */
  function SchemasTotal(v: SummaryView): nat
    requires ViewOk(v)
  {
    SumOf(v.order, v.counts, Schemas)
  }

  /** `num_messages()` of a summary. */
  function MessagesTotal(v: SummaryView): nat
    requires ViewOk(v)
  {
    RecordsTotal(v) + SchemasTotal(v) + v.numStates
  }

  // ---------------------------------------------------------------------
  // The summary as an object

  /** `OutputSummary`: a dict of `StreamAcc`s, updated in place. */
  class OutputSummary {
    var streams: map<string, StreamAcc>
    var order: seq<string>
    var numStates: nat
    var latestState: Option<Json>
    /** The accumulators the summary owns. */
    ghost var Repr: set<StreamAcc>

    /** Each stream's accumulator is owned by the summary and carries its key
        as its name; `order` is the dict's insertion order. */
    ghost predicate Valid()
      reads this
    {
      && (forall s | s in streams :: streams[s] in Repr && streams[s].name == s)
      && (forall i, j | 0 <= i < j < |order| :: order[i] != order[j])
      && (forall s :: s in streams <==> s in order)
    }

    function View(): SummaryView
      reads this, Repr
      requires Valid()
    {
      SummaryView(order,
        map s | s in streams :: Counts(streams[s].numRecords, streams[s].numSchemas),
        numStates, latestState)
    }

    function NumRecords(): nat
      reads this, Repr
      requires Valid()
    {
      RecordsTotal(View())
    }

    function NumSchemas(): nat
      reads this, Repr
      requires Valid()
    {
      SchemasTotal(View())
    }

    function NumMessages(): nat
      reads this, Repr
      requires Valid()
    {
      MessagesTotal(View())
    }

    /** A fresh summary (the model does not share the `{}` default between
        summaries). */
    constructor()
      ensures Valid() && View() == Start && Repr == {}
    {
      streams := map[];
      order := [];
      numStates := 0;
      latestState := None;
      Repr := {};
    }

    /** `ensure_stream(stream_name)`: the stream's accumulator, created with
        zero counts when the stream is new. */
    method EnsureStream(name: string) returns (acc: StreamAcc)
      requires Valid()
      modifies this
      ensures Valid() && fresh(Repr - old(Repr))
      ensures name in streams && acc == streams[name] && acc.name == name
      ensures old(name in streams) ==> streams == old(streams) && order == old(order)
      ensures old(name !in streams) ==>
        && fresh(acc)
        && streams == old(streams)[name := acc]
        && order == old(order) + [name]
      ensures numStates == old(numStates) && latestState == old(latestState)
      ensures View() == Ensure(old(View()), name)
    {
      if name !in streams {
        acc := new StreamAcc(name);
        streams := streams[name := acc];
        order := order + [name];
        Repr := Repr + {acc};
        forall i, j | 0 <= i < j < |order| ensures order[i] != order[j] {
          if j == |order| - 1 {
            assert order[i] in old(streams);
          }
        }
      } else {
        acc := streams[name];
      }
    }

    /** `add(message)`. */
    method Add(m: Message)
      requires Valid()
      modifies this, Repr
      ensures Valid() && fresh(Repr - old(Repr))
      ensures View() == Step(old(View()), m)
    {
      match m
      case RecordMessage(s) =>
        CountOne(s, Records);
      case SchemaMessage(s) =>
        CountOne(s, Schemas);
      case StateMessage(x) =>
        latestState := Some(x);
        numStates := numStates + 1;
      case OtherMessage =>
    }

    /** `self.ensure_stream(s).num_records += 1`, or `num_schemas`. */
    method CountOne(s: string, k: Counter)
      requires Valid()
      modifies this, Repr
      ensures Valid() && fresh(Repr - old(Repr))
      ensures View() == Bump(Ensure(old(View()), s), s, k)
    {
      var acc := EnsureStream(s);
      ghost var before := View();
      acc.Increment(k);
      assert forall t | t in streams && t != s :: streams[t].name == t && streams[t] != acc;
      assert View().counts == before.counts[s := Inc(before.counts[s], k)];
    }
  }

  /** `summarize_output(output)`, on messages already parsed. */
  method SummarizeOutput(ms: seq<Message>) returns (summary: OutputSummary)
    ensures fresh(summary) && summary.Valid()
    ensures summary.View() == Summarize(ms)
    ensures summary.NumRecords() == CountKind(ms, RecordMessage(""))
    ensures summary.NumSchemas() == CountKind(ms, SchemaMessage(""))
    ensures summary.NumMessages() == |ms| - CountKind(ms, OtherMessage)
  {
    summary := new OutputSummary();
    for i := 0 to |ms|
      invariant summary.Valid()
      invariant summary.View() == Summarize(ms[..i])
      invariant fresh(summary) && fresh(summary.Repr)
    {
      assert ms[..i + 1][..i] == ms[..i];
      summary.Add(ms[i]);
    }
    assert ms[..|ms|] == ms;
    SummarizeTotals(ms);
  }

  // ---------------------------------------------------------------------
  // What the counters count

  /** The number of messages of `ms` of the same kind as `like`. */
  function CountKind(ms: seq<Message>, like: Message): nat
  {
    if ms == [] then 0
    else (if SameKind(ms[0], like) then 1 else 0) + CountKind(ms[1..], like)
  }

  predicate SameKind(m: Message, like: Message)
  {
    match like
    case RecordMessage(_) => m.RecordMessage?
    case SchemaMessage(_) => m.SchemaMessage?
    case StateMessage(_) => m.StateMessage?
    case OtherMessage => m.OtherMessage?
  }

  lemma {:induction false} CountKindAppend(ms: seq<Message>, m: Message, like: Message)
    ensures CountKind(ms + [m], like) == CountKind(ms, like) + (if SameKind(m, like) then 1 else 0)
    decreases |ms|
  {
    if ms != [] {
      assert (ms + [m])[1..] == ms[1..] + [m];
      CountKindAppend(ms[1..], m, like);
    } else {
      assert [m][1..] == [];
    }
  }

  /** Changing the counters of a stream in the order changes the sum by the
      difference. */
  lemma {:induction false} SumOfUpdate(order: seq<string>, counts: map<string, Counts>, s: string, c: Counts, k: Counter)
    requires forall i, j | 0 <= i < j < |order| :: order[i] != order[j]
    requires forall t | t in order :: t in counts
    ensures s in order ==>
      SumOf(order, counts[s := c], k) + Get(counts[s], k) == SumOf(order, counts, k) + Get(c, k)
    ensures s !in order ==> SumOf(order, counts[s := c], k) == SumOf(order, counts, k)
    decreases |order|
  {
    if order != [] {
      var init := order[..|order| - 1];
      assert forall t | t in init :: t in order;
      SumOfUpdate(init, counts, s, c, k);
      if s == order[|order| - 1] {
        assert s !in init by {
          forall i | 0 <= i < |init| ensures init[i] != s {
            assert init[i] == order[i];
          }
        }
      }
    }
  }

  /** One message: the kind it has decides which total grows by one, every
      total of another kind stays, and the order stays without repeats. */
  lemma StepTotals(v: SummaryView, m: Message)
    requires ViewOk(v)
    ensures ViewOk(Step(v, m))
    ensures RecordsTotal(Step(v, m)) == RecordsTotal(v) + (if m.RecordMessage? then 1 else 0)
    ensures SchemasTotal(Step(v, m)) == SchemasTotal(v) + (if m.SchemaMessage? then 1 else 0)
    ensures Step(v, m).numStates == v.numStates + (if m.StateMessage? then 1 else 0)
  {
    if m.RecordMessage? || m.SchemaMessage? {
      EnsureTotals(v, m.stream);
      BumpTotals(Ensure(v, m.stream), m.stream, if m.RecordMessage? then Records else Schemas);
    }
  }

  /** `ensure_stream` adds no count. */
  lemma EnsureTotals(v: SummaryView, s: string)
    requires ViewOk(v)
    ensures ViewOk(Ensure(v, s)) && s in Ensure(v, s).counts
    ensures RecordsTotal(Ensure(v, s)) == RecordsTotal(v)
    ensures SchemasTotal(Ensure(v, s)) == SchemasTotal(v)
  {
    if s !in v.counts {
      AppendFresh(v.order, s);
      SumOfAppend(v.order, v.counts, s, Counts(0, 0), Records);
      SumOfAppend(v.order, v.counts, s, Counts(0, 0), Schemas);
    }
  }

  /** A stream new to the order adds its own counter to the sum. */
  lemma SumOfAppend(order: seq<string>, counts: map<string, Counts>, s: string, c: Counts, k: Counter)
    requires forall i, j | 0 <= i < j < |order| :: order[i] != order[j]
    requires forall t | t in order :: t in counts
    requires s !in order
    ensures SumOf(order + [s], counts[s := c], k) == SumOf(order, counts, k) + Get(c, k)
  {
    assert (order + [s])[..|order|] == order;
    SumOfUpdate(order, counts, s, c, k);
  }

  lemma AppendFresh(order: seq<string>, s: string)
    requires forall i, j | 0 <= i < j < |order| :: order[i] != order[j]
    requires s !in order
    ensures forall i, j | 0 <= i < j < |order + [s]| :: (order + [s])[i] != (order + [s])[j]
  {
    forall i, j | 0 <= i < j < |order + [s]| ensures (order + [s])[i] != (order + [s])[j] {
      if j == |order| {
        assert (order + [s])[i] == order[i];
      }
    }
  }

  /** Incrementing one counter of one stream adds one to that counter's
      total and nothing to the other. */
  lemma BumpTotals(v: SummaryView, s: string, k: Counter)
    requires ViewOk(v) && s in v.counts
    ensures ViewOk(Bump(v, s, k))
    ensures RecordsTotal(Bump(v, s, k)) == RecordsTotal(v) + (if k == Records then 1 else 0)
    ensures SchemasTotal(Bump(v, s, k)) == SchemasTotal(v) + (if k == Schemas then 1 else 0)
  {
    SumOfUpdate(v.order, v.counts, s, Inc(v.counts[s], k), Records);
    SumOfUpdate(v.order, v.counts, s, Inc(v.counts[s], k), Schemas);
  }

  /** One message for stream `s` changes that stream's counters and nothing
      else; a state message creates no stream; any other message changes
      nothing. */
  lemma StepFrame(v: SummaryView, m: Message)
    ensures forall t | !((m.RecordMessage? || m.SchemaMessage?) && t == m.stream) ::
      (t in Step(v, m).counts <==> t in v.counts)
      && (t in v.counts ==> Step(v, m).counts[t] == v.counts[t])
    ensures m.RecordMessage? ==>
      var c := if m.stream in v.counts then v.counts[m.stream] else Counts(0, 0);
      Step(v, m).counts[m.stream] == Counts(c.records + 1, c.schemas)
    ensures m.SchemaMessage? ==>
      var c := if m.stream in v.counts then v.counts[m.stream] else Counts(0, 0);
      Step(v, m).counts[m.stream] == Counts(c.records, c.schemas + 1)
    ensures !m.StateMessage? ==>
      Step(v, m).numStates == v.numStates && Step(v, m).latestState == v.latestState
    ensures m.StateMessage? ==>
      Step(v, m) == v.(numStates := v.numStates + 1, latestState := Some(m.value))
    ensures m.OtherMessage? ==> Step(v, m) == v
  {
  }

  /** The totals after a whole output: `num_records()`, `num_schemas()` and
      `num_states` count the record, schema and state messages, and
      `num_messages()` counts every message but the ones the summary
      ignores. */
  lemma {:induction false} SummarizeTotals(ms: seq<Message>)
    ensures ViewOk(Summarize(ms))
    ensures RecordsTotal(Summarize(ms)) == CountKind(ms, RecordMessage(""))
    ensures SchemasTotal(Summarize(ms)) == CountKind(ms, SchemaMessage(""))
    ensures Summarize(ms).numStates == CountKind(ms, StateMessage(JNull))
    ensures MessagesTotal(Summarize(ms)) == |ms| - CountKind(ms, OtherMessage)
    decreases |ms|
  {
    if ms != [] {
      var init, m := ms[..|ms| - 1], ms[|ms| - 1];
      SummarizeTotals(init);
      StepTotals(Summarize(init), m);
      assert init + [m] == ms;
      CountKindAppend(init, m, RecordMessage(""));
      CountKindAppend(init, m, SchemaMessage(""));
      CountKindAppend(init, m, StateMessage(JNull));
      CountKindAppend(init, m, OtherMessage);
      KindsPartition(init);
    }
  }

  lemma {:induction false} KindsPartition(ms: seq<Message>)
    ensures CountKind(ms, RecordMessage("")) + CountKind(ms, SchemaMessage(""))
      + CountKind(ms, StateMessage(JNull)) + CountKind(ms, OtherMessage) == |ms|
    decreases |ms|
  {
    if ms != [] {
      KindsPartition(ms[1..]);
    }
  }

  /** Each stream's counters: a stream is in the summary exactly when a
      record or schema message names it, and its counters are the number of
      each. */
  lemma {:induction false} SummarizeStream(ms: seq<Message>, s: string)
    ensures s in Summarize(ms).counts <==> RecordMessage(s) in ms || SchemaMessage(s) in ms
    ensures s in Summarize(ms).counts ==>
      Summarize(ms).counts[s] == Counts(multiset(ms)[RecordMessage(s)], multiset(ms)[SchemaMessage(s)])
    decreases |ms|
  {
    if ms != [] {
      var init, m := ms[..|ms| - 1], ms[|ms| - 1];
      SummarizeStream(init, s);
      StepFrame(Summarize(init), m);
      assert ms == init + [m];
      assert multiset(ms) == multiset(init) + multiset{m};
      if s !in Summarize(init).counts {
        assert multiset(init)[RecordMessage(s)] == 0;
        assert multiset(init)[SchemaMessage(s)] == 0;
      }
    }
  }

  /** `latest_state` is the value of the last state message, and is unset
      when there was none. */
  lemma {:induction false} SummarizeLatestState(ms: seq<Message>)
    ensures Summarize(ms).latestState.None? <==> forall i | 0 <= i < |ms| :: !ms[i].StateMessage?
    ensures Summarize(ms).latestState.Some? ==>
      exists i | 0 <= i < |ms| :: ms[i] == StateMessage(Summarize(ms).latestState.value)
        && forall j | i < j < |ms| :: !ms[j].StateMessage?
    decreases |ms|
  {
    if ms != [] {
      var init, m := ms[..|ms| - 1], ms[|ms| - 1];
      SummarizeLatestState(init);
      assert forall i | 0 <= i < |init| :: init[i] == ms[i];
      if !m.StateMessage? && Summarize(ms).latestState.Some? {
        var i :| 0 <= i < |init| && init[i] == StateMessage(Summarize(ms).latestState.value)
          && forall j | i < j < |init| :: !init[j].StateMessage?;
        assert ms[i] == StateMessage(Summarize(ms).latestState.value);
      }
    }
  }
}
