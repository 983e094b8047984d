/** The UPS collector of src/metrics/ups.rs: the per-device record the NUT data source fills, the
    nine gauge families exposed per scrape and the stored snapshot. */
module UpsMetrics {
  import opened Wrappers
  import opened Text
  import opened Seqs
  import opened MetricsUtil

  datatype Config = Config(enabled: bool)

  /** Readings of one UPS; each is absent when the UPS does not report it. */
  datatype UpsDeviceStats = UpsDeviceStats(
    deviceName: String,
    estimatedRuntime: Option<real>, batteryLevel: Option<real>, load: Option<real>,
    inputVoltage: Option<real>, outputVoltage: Option<real>,
    nominalApparentPower: Option<real>, nominalRealPower: Option<real>,
    apparentPower: Option<real>, realPower: Option<real>)

  /** `timestamp` is the instant of the reading, in milliseconds. */
  datatype UpsStats = UpsStats(timestamp: int, devices: seq<UpsDeviceStats>)

  const RUNTIME: Desc := Desc("system_ups_runtime_seconds", "Estimated battery runtime", ["ups"])
  const BATTERY_LEVEL: Desc := Desc("system_ups_battery_level_percent", "Battery charge level", ["ups"])
  const INPUT_VOLTAGE: Desc := Desc("system_ups_input_voltage", "Input line voltage", ["ups"])
  const OUTPUT_VOLTAGE: Desc := Desc("system_ups_output_voltage", "Output line voltage", ["ups"])
  const NOMINAL_APPARENT_POWER: Desc := Desc("system_ups_nominal_apparent_power_va", "Nominal apparent power", ["ups"])
  const NOMINAL_REAL_POWER: Desc := Desc("system_ups_nominal_real_power_watts", "Nominal real power", ["ups"])
  const APPARENT_POWER: Desc := Desc("system_ups_apparent_power_va", "Apparent power draw", ["ups"])
  const REAL_POWER: Desc := Desc("system_ups_real_power_watts", "Real power draw", ["ups"])
  const LOAD: Desc := Desc("system_ups_load_percent", "UPS load percentage", ["ups"])

  /** `Metrics::desc`: seven descriptors; the two nominal-power ones are not listed. */
  const DESCS: seq<Desc> := [RUNTIME, BATTERY_LEVEL, INPUT_VOLTAGE, OUTPUT_VOLTAGE, APPARENT_POWER, REAL_POWER, LOAD]

  lemma DescsOmitNominalPower()
    ensures |DESCS| == 7
    ensures NOMINAL_APPARENT_POWER !in DESCS && NOMINAL_REAL_POWER !in DESCS
    ensures forall d :: d in DESCS ==> d.variableLabels == ["ups"]
  {
  }

  datatype Registration = NoOpCollector | UpsCollectorWith(registered: seq<Desc>)

  /** `Ups::register`: a disabled config registers nothing and gives the no-op collector; an
      enabled one registers the seven listed descriptors with the registry. */
  function Register(config: Config): (r: Registration)
    ensures !config.enabled <==> r == NoOpCollector
    ensures config.enabled ==> r == UpsCollectorWith(DESCS)
    ensures config.enabled ==> |r.registered| == 7 && RUNTIME in r.registered && LOAD in r.registered
    ensures config.enabled ==> NOMINAL_APPARENT_POWER !in r.registered && NOMINAL_REAL_POWER !in r.registered
  {
    if !config.enabled then NoOpCollector else UpsCollectorWith(DESCS)
  }

  /** The reading a family exposes: the extractor closures of `Metrics::collect`. */
  datatype Field = Runtime | BatteryLevel | NominalApparentPower | NominalRealPower | ApparentPower
                 | RealPower | Load | InputVoltage | OutputVoltage

  function Extract(field: Field, u: UpsDeviceStats): Option<real> {
    match field
    case Runtime => u.estimatedRuntime
    case BatteryLevel => u.batteryLevel
    case NominalApparentPower => u.nominalApparentPower
    case NominalRealPower => u.nominalRealPower
    case ApparentPower => u.apparentPower
    case RealPower => u.realPower
    case Load => u.load
    case InputVoltage => u.inputVoltage
    case OutputVoltage => u.outputVoltage
  }

  function UpsLabels(u: UpsDeviceStats): seq<LabelPair> {
    [LabelPair("ups", u.deviceName)]
  }

  /** The sample of one device for a field, if it has a value. */
  function SampleOf(field: Field): UpsDeviceStats -> Option<Metric> {
    (u: UpsDeviceStats) => if Extract(field, u).Some? then Some(Metric(UpsLabels(u), Extract(field, u).value)) else None
  }

  predicate HasReading(field: Field, u: UpsDeviceStats) {
    Extract(field, u).Some?
  }

  /** `m` is the sample of device `u` for the field. */
  predicate IsSampleOf(field: Field, m: Metric, u: UpsDeviceStats) {
    HasReading(field, u) && m == Metric(UpsLabels(u), Extract(field, u).value)
  }

  function HasField(field: Field): UpsDeviceStats -> bool {
    (u: UpsDeviceStats) => HasReading(field, u)
  }

  /** The family `build_metric_family` builds: the descriptor's name and help, a gauge, and one
      sample per device that has the reading, in device order. */
  function FamilyOf(desc: Desc, devices: seq<UpsDeviceStats>, field: Field): MetricFamily {
    MetricFamily(desc.fqName, desc.help, GAUGE, FilterMap(devices, SampleOf(field)))
  }

  method BuildMetricFamily(desc: Desc, stats: UpsStats, field: Field) returns (mf: MetricFamily)
    ensures mf == FamilyOf(desc, stats.devices, field)
  {
    var devices := stats.devices;
    var metrics: seq<Metric> := [];
    for k := 0 to |devices|
      invariant metrics == FilterMap(devices[..k], SampleOf(field))
    {
      assert devices[..k + 1][..k] == devices[..k];
      var ups := devices[k];
      var val := Extract(field, ups);
      if val.Some? {
        metrics := metrics + [Metric([LabelPair("ups", ups.deviceName)], val.value)];
      }
    }
    assert devices[..|devices|] == devices;
    mf := MetricFamily(desc.fqName, desc.help, GAUGE, metrics);
  }

  /** One sample per device that has the reading, each labelled ups=<device name> and carrying
      that reading; the family exists, with no samples, when no device has it. */
  lemma {:induction false} FamilySamples(desc: Desc, devices: seq<UpsDeviceStats>, field: Field)
    ensures var mf := FamilyOf(desc, devices, field);
      mf.name == desc.fqName && mf.help == desc.help && mf.kind == GAUGE &&
      |mf.metrics| == Count(devices, HasField(field)) &&
      forall m :: m in mf.metrics ==> exists u :: u in devices && IsSampleOf(field, m, u)
    decreases |devices|
  {
    FilterMapCount(devices, SampleOf(field), HasField(field));
    if devices != [] {
      var init := devices[..|devices| - 1];
      FamilySamples(desc, init, field);
      forall m | m in FilterMap(devices, SampleOf(field))
        ensures exists u :: u in devices && IsSampleOf(field, m, u)
      {
        if m in FilterMap(init, SampleOf(field)) {
          var u :| u in init && IsSampleOf(field, m, u);
          assert u in devices;
        } else {
          assert devices[|devices| - 1] in devices;
        }
      }
    }
  }

  /** Sample order is device order: the samples of two device lists are those of each in turn. */
  lemma FamilyOrder(desc: Desc, a: seq<UpsDeviceStats>, b: seq<UpsDeviceStats>, field: Field)
    ensures FamilyOf(desc, a + b, field).metrics == FamilyOf(desc, a, field).metrics + FamilyOf(desc, b, field).metrics
  {
    FilterMapAppend(a, b, SampleOf(field));
  }

  /** The nine families of a snapshot, in the order `Metrics::collect` pushes them. */
  function UpsFamilies(stats: UpsStats): (r: seq<MetricFamily>)
    ensures |r| == 9 && forall k :: 0 <= k < 9 ==> r[k].kind == GAUGE
  {
    var d := stats.devices;
    [FamilyOf(RUNTIME, d, Runtime), FamilyOf(BATTERY_LEVEL, d, BatteryLevel),
     FamilyOf(NOMINAL_APPARENT_POWER, d, NominalApparentPower), FamilyOf(NOMINAL_REAL_POWER, d, NominalRealPower),
     FamilyOf(APPARENT_POWER, d, ApparentPower), FamilyOf(REAL_POWER, d, RealPower), FamilyOf(LOAD, d, Load),
     FamilyOf(INPUT_VOLTAGE, d, InputVoltage), FamilyOf(OUTPUT_VOLTAGE, d, OutputVoltage)]
  }

  /** `Metrics::collect`: nothing without a snapshot, else the nine families. */
  method CollectFamilies(state: Option<UpsStats>) returns (mf: seq<MetricFamily>)
    ensures state.None? ==> mf == []
    ensures state.Some? ==> mf == UpsFamilies(state.value)
  {
    if state.None? {
      return [];
    }
    var stats := state.value;
    mf := [];
    var f := BuildMetricFamily(RUNTIME, stats, Runtime);
    mf := mf + [f];
    f := BuildMetricFamily(BATTERY_LEVEL, stats, BatteryLevel);
    mf := mf + [f];
    f := BuildMetricFamily(NOMINAL_APPARENT_POWER, stats, NominalApparentPower);
    mf := mf + [f];
    f := BuildMetricFamily(NOMINAL_REAL_POWER, stats, NominalRealPower);
    mf := mf + [f];
    f := BuildMetricFamily(APPARENT_POWER, stats, ApparentPower);
    mf := mf + [f];
    f := BuildMetricFamily(REAL_POWER, stats, RealPower);
    mf := mf + [f];
    f := BuildMetricFamily(LOAD, stats, Load);
    mf := mf + [f];
    f := BuildMetricFamily(INPUT_VOLTAGE, stats, InputVoltage);
    mf := mf + [f];
    f := BuildMetricFamily(OUTPUT_VOLTAGE, stats, OutputVoltage);
    mf := mf + [f];
  }

  /** The family names, in order; the nominal-power families are exposed although `desc` does
      not list them. */
  lemma UpsFamilyNames(stats: UpsStats)
    ensures var r := UpsFamilies(stats);
      r[0].name == RUNTIME.fqName && r[1].name == BATTERY_LEVEL.fqName &&
      r[2].name == NOMINAL_APPARENT_POWER.fqName && r[3].name == NOMINAL_REAL_POWER.fqName &&
      r[4].name == APPARENT_POWER.fqName && r[5].name == REAL_POWER.fqName && r[6].name == LOAD.fqName &&
      r[7].name == INPUT_VOLTAGE.fqName && r[8].name == OUTPUT_VOLTAGE.fqName
    ensures NOMINAL_APPARENT_POWER !in DESCS && NOMINAL_REAL_POWER !in DESCS
  {
  }

  function Timestamp(stats: UpsStats): int {
    stats.timestamp
  }

  /** `UpsCollector`: the snapshot shared with the exposition side. */
  class UpsCollector {
    var measurements: Option<UpsStats>

    constructor()
      ensures measurements == None
    {
      measurements := None;
    }

    /** `collect`, given what the data source returned: an error is returned and the snapshot
        kept; fresh stats replace it when it is empty or they are strictly newer. */
    method Collect(source: Result<UpsStats>) returns (r: Result<()>)
      modifies this
      ensures source.Err? ==> r == Err(source.error) && measurements == old(measurements)
      ensures source.Ok? ==> r == Ok(()) && measurements == UpdateIfNewer(old(measurements), source.value, Timestamp)
    {
      if source.Err? {
        return Err(source.error);
      }
      measurements := UpdateIfNewer(measurements, source.value, Timestamp);
      r := Ok(());
    }
  }
}
