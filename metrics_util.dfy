/** The metric-family builders of src/metrics/util.rs and the snapshot rule shared by the
    collectors. Prometheus' protobuf types are replaced by plain datatypes holding what the
    exposition needs: a family's name, help, type and its metrics' labels and values. */
module MetricsUtil {
  import opened Wrappers
  import opened Text

  /** A metric descriptor: fully qualified name, help text and the names of its variable labels. */
  datatype Desc = Desc(fqName: String, help: String, variableLabels: seq<String>)

  datatype LabelPair = LabelPair(name: String, value: String)

  datatype MetricType = GAUGE | COUNTER

  /** One sample: its labels and its value (an f64 in the source, a real here). */
  datatype Metric = Metric(labels: seq<LabelPair>, value: real)

  datatype MetricFamily = MetricFamily(name: String, help: String, kind: MetricType, metrics: seq<Metric>)

  /** `into_labels`: one label per key/value pair, in the same order. */
  function IntoLabels(kv: seq<(String, String)>): (r: seq<LabelPair>)
    ensures |r| == |kv|
    ensures forall k :: 0 <= k < |kv| ==> r[k].name == kv[k].0 && r[k].value == kv[k].1
  {
    if kv == [] then [] else IntoLabels(kv[..|kv| - 1]) + [LabelPair(kv[|kv| - 1].0, kv[|kv| - 1].1)]
  }

  /** The key/value pairs a label list carries. */
  function PairsOf(labels: seq<LabelPair>): seq<(String, String)> {
    seq(|labels|, k requires 0 <= k < |labels| => (labels[k].name, labels[k].value))
  }

  /** Building labels loses nothing: the pairs can be read back in order. */
  lemma PairsOfIntoLabels(kv: seq<(String, String)>)
    ensures PairsOf(IntoLabels(kv)) == kv
  {
  }

  /** A family with the descriptor's name and help, the given type, and a single metric. */
  function Family(desc: Desc, kind: MetricType, labels: seq<LabelPair>, value: real): MetricFamily {
    MetricFamily(desc.fqName, desc.help, kind, [Metric(labels, value)])
  }

  /** `gauge`. */
  function Gauge(desc: Desc, labels: seq<LabelPair>, value: real): (mf: MetricFamily)
    ensures mf.kind == GAUGE && mf.name == desc.fqName && mf.help == desc.help
    ensures |mf.metrics| == 1 && mf.metrics[0].labels == labels && mf.metrics[0].value == value
  {
    Family(desc, GAUGE, labels, value)
  }

  /** `counter`. */
  function Counter(desc: Desc, labels: seq<LabelPair>, value: real): (mf: MetricFamily)
    ensures mf.kind == COUNTER && mf.name == desc.fqName && mf.help == desc.help
    ensures |mf.metrics| == 1 && mf.metrics[0].labels == labels && mf.metrics[0].value == value
  {
    Family(desc, COUNTER, labels, value)
  }

  /** A gauge and a counter built from the same arguments differ in their type alone. */
  lemma GaugeCounterDifferInKind(desc: Desc, labels: seq<LabelPair>, value: real)
    ensures Gauge(desc, labels, value) != Counter(desc, labels, value)
    ensures Gauge(desc, labels, value).(kind := COUNTER) == Counter(desc, labels, value)
  {
  }

  /** `maybe_gauge` on the caller's vector `families`: the vector after the call. */
  function MaybeGauge(families: seq<MetricFamily>, desc: Desc, labels: seq<LabelPair>, val: Option<real>): (r: seq<MetricFamily>)
    ensures val.None? ==> r == families
    ensures val.Some? ==> |r| == |families| + 1 && r[..|families|] == families
    ensures val.Some? ==> r[|families|] == Gauge(desc, labels, val.value)
  {
    match val
    case None => families
    case Some(v) => families + [Gauge(desc, labels, v)]
  }

  /** `maybe_counter` on the caller's vector `families`: the vector after the call. */
  function MaybeCounter(families: seq<MetricFamily>, desc: Desc, labels: seq<LabelPair>, val: Option<real>): (r: seq<MetricFamily>)
    ensures val.None? ==> r == families
    ensures val.Some? ==> |r| == |families| + 1 && r[..|families|] == families
    ensures val.Some? ==> r[|families|] == Counter(desc, labels, val.value)
  {
    match val
    case None => families
    case Some(v) => families + [Counter(desc, labels, v)]
  }

  /** An optional reading as a sample value: u64 fields become reals. */
  function AsValue(val: Option<nat>): (r: Option<real>)
    ensures r.Some? <==> val.Some?
    ensures r.Some? ==> r.value == val.value as real
  {
    match val
    case None => None
    case Some(v) => Some(v as real)
  }

  /** The number of values that are present. */
  function Present(vals: seq<Option<real>>): (n: nat)
    ensures n <= |vals|
  {
    if vals == [] then 0 else Present(vals[..|vals| - 1]) + (if vals[|vals| - 1].Some? then 1 else 0)
  }

  /** Only which values are present matters, not what they are. */
  lemma {:induction false} PresentSameShape(a: seq<Option<real>>, b: seq<Option<real>>)
    requires |a| == |b|
    requires forall i :: 0 <= i < |a| ==> (a[i].Some? <==> b[i].Some?)
    ensures Present(a) == Present(b)
    decreases |a|
  {
    if a != [] {
      PresentSameShape(a[..|a| - 1], b[..|b| - 1]);
    }
  }

  /** Values of which none is present count nothing. */
  lemma {:induction false} NoneAbsent(vals: seq<Option<real>>)
    requires forall i :: 0 <= i < |vals| ==> vals[i].None?
    ensures Present(vals) == 0
    decreases |vals|
  {
    if vals != [] {
      NoneAbsent(vals[..|vals| - 1]);
    }
  }

  /** One `maybe_gauge` per (descriptor, value) pair, all with the same labels. */
  function MaybeGauges(families: seq<MetricFamily>, descs: seq<Desc>, labels: seq<LabelPair>, vals: seq<Option<real>>): (r: seq<MetricFamily>)
    requires |descs| == |vals|
  {
    if vals == [] then families
    else MaybeGauge(MaybeGauges(families, descs[..|descs| - 1], labels, vals[..|vals| - 1]),
                    descs[|descs| - 1], labels, vals[|vals| - 1])
  }

  /** One `maybe_counter` per (descriptor, value) pair, all with the same labels. */
  function MaybeCounters(families: seq<MetricFamily>, descs: seq<Desc>, labels: seq<LabelPair>, vals: seq<Option<real>>): (r: seq<MetricFamily>)
    requires |descs| == |vals|
  {
    if vals == [] then families
    else MaybeCounter(MaybeCounters(families, descs[..|descs| - 1], labels, vals[..|vals| - 1]),
                      descs[|descs| - 1], labels, vals[|vals| - 1])
  }

  /** Sparse emission: a run of `maybe_gauge` calls keeps what was there and adds exactly one
      family per present value, each a gauge carrying the shared labels. */
  lemma {:induction false} MaybeGaugesSparse(families: seq<MetricFamily>, descs: seq<Desc>, labels: seq<LabelPair>, vals: seq<Option<real>>)
    requires |descs| == |vals|
    ensures var r := MaybeGauges(families, descs, labels, vals);
      |r| == |families| + Present(vals) && r[..|families|] == families &&
      forall k :: |families| <= k < |r| ==> r[k].kind == GAUGE && |r[k].metrics| == 1 && r[k].metrics[0].labels == labels
    decreases |vals|
  {
    if vals != [] {
      MaybeGaugesSparse(families, descs[..|descs| - 1], labels, vals[..|vals| - 1]);
    }
  }

  /** Each family a run of `maybe_gauge` calls adds is the gauge of one of the present values. */
  lemma {:induction false} MaybeGaugesFrom(families: seq<MetricFamily>, descs: seq<Desc>, labels: seq<LabelPair>, vals: seq<Option<real>>)
    requires |descs| == |vals|
    ensures |MaybeGauges(families, descs, labels, vals)| >= |families|
    ensures forall k :: |families| <= k < |MaybeGauges(families, descs, labels, vals)| ==>
      exists j :: 0 <= j < |vals| && vals[j].Some? && MaybeGauges(families, descs, labels, vals)[k] == Gauge(descs[j], labels, vals[j].value)
    decreases |vals|
  {
    if vals != [] {
      var ds, vs := descs[..|descs| - 1], vals[..|vals| - 1];
      MaybeGaugesFrom(families, ds, labels, vs);
      var prev := MaybeGauges(families, ds, labels, vs);
      forall k | |families| <= k < |MaybeGauges(families, descs, labels, vals)|
        ensures exists j :: 0 <= j < |vals| && vals[j].Some? && MaybeGauges(families, descs, labels, vals)[k] == Gauge(descs[j], labels, vals[j].value)
      {
        if k < |prev| {
          var j :| 0 <= j < |vs| && vs[j].Some? && prev[k] == Gauge(ds[j], labels, vs[j].value);
          assert vals[j] == vs[j] && descs[j] == ds[j];
        } else {
          assert MaybeGauges(families, descs, labels, vals)[k] == Gauge(descs[|descs| - 1], labels, vals[|vals| - 1].value);
        }
      }
    }
  }

  /** Sparse emission with counters. */
  lemma {:induction false} MaybeCountersSparse(families: seq<MetricFamily>, descs: seq<Desc>, labels: seq<LabelPair>, vals: seq<Option<real>>)
    requires |descs| == |vals|
    ensures var r := MaybeCounters(families, descs, labels, vals);
      |r| == |families| + Present(vals) && r[..|families|] == families &&
      forall k :: |families| <= k < |r| ==> r[k].kind == COUNTER && |r[k].metrics| == 1 && r[k].metrics[0].labels == labels
    decreases |vals|
  {
    if vals != [] {
      MaybeCountersSparse(families, descs[..|descs| - 1], labels, vals[..|vals| - 1]);
    }
  }

  /** Each family a run of `maybe_counter` calls adds is the counter of one of the present values. */
  lemma {:induction false} MaybeCountersFrom(families: seq<MetricFamily>, descs: seq<Desc>, labels: seq<LabelPair>, vals: seq<Option<real>>)
    requires |descs| == |vals|
    ensures |MaybeCounters(families, descs, labels, vals)| >= |families|
    ensures forall k :: |families| <= k < |MaybeCounters(families, descs, labels, vals)| ==>
      exists j :: 0 <= j < |vals| && vals[j].Some? && MaybeCounters(families, descs, labels, vals)[k] == Counter(descs[j], labels, vals[j].value)
    decreases |vals|
  {
    if vals != [] {
      var ds, vs := descs[..|descs| - 1], vals[..|vals| - 1];
      MaybeCountersFrom(families, ds, labels, vs);
      var prev := MaybeCounters(families, ds, labels, vs);
      forall k | |families| <= k < |MaybeCounters(families, descs, labels, vals)|
        ensures exists j :: 0 <= j < |vals| && vals[j].Some? && MaybeCounters(families, descs, labels, vals)[k] == Counter(descs[j], labels, vals[j].value)
      {
        if k < |prev| {
          var j :| 0 <= j < |vs| && vs[j].Some? && prev[k] == Counter(ds[j], labels, vs[j].value);
          assert vals[j] == vs[j] && descs[j] == ds[j];
        } else {
          assert MaybeCounters(families, descs, labels, vals)[k] == Counter(descs[|descs| - 1], labels, vals[|vals| - 1].value);
        }
      }
    }
  }

  /** The snapshot rule of the collectors (src/metrics/disk_io.rs:213-221): an empty store takes
      the new measurement; a stored one is replaced only by a strictly newer one. */
  function UpdateIfNewer<T>(stored: Option<T>, incoming: T, timestamp: T -> int): (r: Option<T>)
    ensures r.Some?
  {
    match stored
    case None => Some(incoming)
    case Some(prev) => if timestamp(prev) < timestamp(incoming) then Some(incoming) else stored
  }

  /** The store is replaced exactly when it was empty or the incoming measurement is strictly newer,
      and otherwise left as it was. */
  lemma UpdateIfNewerReplaces<T>(stored: Option<T>, incoming: T, timestamp: T -> int)
    ensures UpdateIfNewer(stored, incoming, timestamp) == Some(incoming)
      <== stored.None? || timestamp(stored.value) < timestamp(incoming)
    ensures stored.Some? && timestamp(incoming) <= timestamp(stored.value) ==>
      UpdateIfNewer(stored, incoming, timestamp) == stored
  {
  }

  /** The stored timestamp never goes backwards: it becomes the later of the two. */
  lemma UpdateIfNewerMonotone<T>(stored: Option<T>, incoming: T, timestamp: T -> int)
    requires stored.Some?
    ensures var r := UpdateIfNewer(stored, incoming, timestamp);
      timestamp(r.value) == if timestamp(stored.value) < timestamp(incoming) then timestamp(incoming) else timestamp(stored.value)
  {
  }

  /** Offering the same measurement twice changes nothing the second time. */
  lemma UpdateIfNewerIdempotent<T>(stored: Option<T>, incoming: T, timestamp: T -> int)
    ensures var once := UpdateIfNewer(stored, incoming, timestamp);
      UpdateIfNewer(once, incoming, timestamp) == once
  {
  }
}
