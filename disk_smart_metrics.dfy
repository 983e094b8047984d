/** The SMART collector of src/metrics/disk_smart.rs: the SATA and NVMe health records the
    smartctl data source fills, the families exposed per scrape (one per present reading) and
    the snapshot the collector overwrites. */
module DiskSmartMetrics {
  import opened Wrappers
  import opened Text
  import opened MetricsUtil

  datatype Config = Config(enabled: bool)

  const DEFAULT_CONFIG: Config := Config(true)

  /** Which disk a report is about. */
  datatype Device = Device(device: String, model: String, serialNumber: String)

  /** Counts are u64 in the source (`nat` here); temperatures and the wear level are f64 (`real`). */
  datatype SataDevice = SataDevice(
    device: Device,
    temperature: Option<real>, temperatureMin: Option<real>, temperatureMax: Option<real>,
    startStopCount: Option<nat>, powerOnHours: Option<nat>, powerCycleCount: Option<nat>,
    loadCycleCount: Option<nat>, reallocatedSectors: Option<nat>, pendingSectors: Option<nat>,
    uncorrectableErrors: Option<nat>, crcErrors: Option<nat>, wearLevel: Option<real>)

  datatype NvmeDevice = NvmeDevice(
    device: Device,
    temperature: Option<real>, availableSpare: Option<real>, percentUsed: Option<real>,
    dataUnitsRead: Option<nat>, dataUnitsWritten: Option<nat>, hostReads: Option<nat>,
    hostWrites: Option<nat>, powerOnHours: Option<nat>, unsafeShutdowns: Option<nat>,
    mediaErrors: Option<nat>)

  /** `timestamp` is the instant of the scan, in milliseconds. */
  datatype SmartReports = SmartReports(timestamp: int, sata: seq<SataDevice>, nvme: seq<NvmeDevice>)

  /** The readings of a SATA record, gauges first, in the order `Metrics::collect` emits them. */
  function SataGaugeValues(s: SataDevice): seq<Option<real>> {
    [s.temperature, s.temperatureMin, s.temperatureMax, AsValue(s.pendingSectors),
     AsValue(s.reallocatedSectors), s.wearLevel]
  }

  function SataCounterValues(s: SataDevice): seq<Option<real>> {
    [AsValue(s.startStopCount), AsValue(s.powerOnHours), AsValue(s.powerCycleCount),
     AsValue(s.loadCycleCount), AsValue(s.uncorrectableErrors), AsValue(s.crcErrors)]
  }

  function NvmeGaugeValues(n: NvmeDevice): seq<Option<real>> {
    [n.temperature, n.availableSpare, n.percentUsed]
  }

  function NvmeCounterValues(n: NvmeDevice): seq<Option<real>> {
    [AsValue(n.dataUnitsRead), AsValue(n.dataUnitsWritten), AsValue(n.hostReads), AsValue(n.hostWrites),
     AsValue(n.powerOnHours), AsValue(n.unsafeShutdowns), AsValue(n.mediaErrors)]
  }

  /** `SataDevice::new`: the device and no reading at all. */
  function NewSata(device: Device): (s: SataDevice)
    ensures s.device == device
    ensures Present(SataGaugeValues(s)) == 0 && Present(SataCounterValues(s)) == 0
  {
    var s := SataDevice(device, None, None, None, None, None, None, None, None, None, None, None, None);
    NoneAbsent(SataGaugeValues(s));
    NoneAbsent(SataCounterValues(s));
    s
  }

  /** `NvmeDevice::new`: the device and no reading at all. */
  function NewNvme(device: Device): (n: NvmeDevice)
    ensures n.device == device
    ensures Present(NvmeGaugeValues(n)) == 0 && Present(NvmeCounterValues(n)) == 0
  {
    var n := NvmeDevice(device, None, None, None, None, None, None, None, None, None, None);
    NoneAbsent(NvmeGaugeValues(n));
    NoneAbsent(NvmeCounterValues(n));
    n
  }

  const LABELS: seq<String> := ["device", "model", "serial_number"]

  const SATA_TEMP: Desc := Desc("system_smart_sata_temperature_celsius", "Current SATA disk temperature", LABELS)
  const SATA_TEMP_MIN: Desc := Desc("smart_sata_temperature_min_celsius", "Minimum temperature recorded by the SATA device", LABELS)
  const SATA_TEMP_MAX: Desc := Desc("smart_sata_temperature_max_celsius", "Maximum temperature recorded by the SATA device", LABELS)
  const SATA_START_STOP: Desc := Desc("system_smart_sata_start_stop_count_total", "Total SATA start/stop cycles", LABELS)
  const SATA_POWER_ON: Desc := Desc("system_smart_sata_power_on_hours_total", "Total SATA power on hours", LABELS)
  const SATA_POWER_CYCLE: Desc := Desc("system_smart_sata_power_cycle_count_total", "Total SATA power cycles", LABELS)
  const SATA_LOAD_CYCLE: Desc := Desc("system_smart_sata_load_cycle_count_total", "Total SATA load/unload cycles", LABELS)
  const SATA_REALLOCATED: Desc := Desc("system_smart_sata_reallocated_sectors_total", "Total SATA reallocated sectors count", LABELS)
  const SATA_PENDING: Desc := Desc("system_smart_sata_pending_sectors_total", "Total SATA pending sectors count", LABELS)
  const SATA_UNCORRECTABLE: Desc := Desc("system_smart_sata_uncorrectable_errors_total", "Total SATA uncorrectable errors count", LABELS)
  const SATA_CRC_ERRORS: Desc := Desc("system_smart_sata_crc_errors_total", "Total SATA interface CRC errors (UDMA_CRC_Error_Count)", LABELS)
  const SATA_WEAR_LEVEL: Desc := Desc("system_smart_sata_wear_level_ratio", "SATA SSD wear level (1.0 is new, 0.0 is end of life)", LABELS)

  const NVME_TEMP: Desc := Desc("system_smart_nvme_temperature_celsius", "Current NVMe disk temperature", LABELS)
  const NVME_AVAILABLE_SPARE: Desc := Desc("system_smart_nvme_available_spare_ratio", "NVMe remaining spare capacity ratio (0-1)", LABELS)
  const NVME_PERCENT_USED: Desc := Desc("system_smart_nvme_percent_used_ratio", "NVMe life used ratio (0-1, can exceed 1)", LABELS)
  const NVME_DATA_READ: Desc := Desc("system_smart_nvme_data_units_read_total", "Total NVMe data units read (512 byte units)", LABELS)
  const NVME_DATA_WRITTEN: Desc := Desc("system_smart_nvme_data_units_written_total", "Total NVMe data units written (512 byte units)", LABELS)
  const NVME_HOST_READS: Desc := Desc("system_smart_nvme_host_reads_total", "Total NVMe host read commands", LABELS)
  const NVME_HOST_WRITES: Desc := Desc("system_smart_nvme_host_writes_total", "Total NVMe host write commands", LABELS)
  const NVME_POWER_ON: Desc := Desc("system_smart_nvme_power_on_hours_total", "Total NVMe power on hours", LABELS)
  const NVME_UNSAFE_SHUTDOWNS: Desc := Desc("system_smart_nvme_unsafe_shutdowns_total", "Total NVMe unsafe shutdowns", LABELS)
  const NVME_MEDIA_ERRORS: Desc := Desc("system_smart_nvme_media_errors_total", "Total NVMe media and data integrity errors", LABELS)

  /** The descriptors of the SATA gauges and counters, matching `SataGaugeValues` and
      `SataCounterValues` position by position. */
  const SATA_GAUGES: seq<Desc> := [SATA_TEMP, SATA_TEMP_MIN, SATA_TEMP_MAX, SATA_PENDING, SATA_REALLOCATED, SATA_WEAR_LEVEL]
  const SATA_COUNTERS: seq<Desc> := [SATA_START_STOP, SATA_POWER_ON, SATA_POWER_CYCLE, SATA_LOAD_CYCLE, SATA_UNCORRECTABLE, SATA_CRC_ERRORS]
  const NVME_GAUGES: seq<Desc> := [NVME_TEMP, NVME_AVAILABLE_SPARE, NVME_PERCENT_USED]
  const NVME_COUNTERS: seq<Desc> := [NVME_DATA_READ, NVME_DATA_WRITTEN, NVME_HOST_READS, NVME_HOST_WRITES,
                                     NVME_POWER_ON, NVME_UNSAFE_SHUTDOWNS, NVME_MEDIA_ERRORS]

  /** `Metrics::desc`: all 22 descriptors. */
  const DESCS: seq<Desc> := SATA_GAUGES[..3] + [SATA_START_STOP, SATA_POWER_ON, SATA_POWER_CYCLE, SATA_LOAD_CYCLE,
    SATA_REALLOCATED, SATA_PENDING, SATA_UNCORRECTABLE, SATA_CRC_ERRORS, SATA_WEAR_LEVEL] + NVME_GAUGES + NVME_COUNTERS

  /** `make_labels`: device, model and serial number, in that order. */
  function MakeLabels(d: Device): (l: seq<LabelPair>)
    ensures l == [LabelPair("device", d.device), LabelPair("model", d.model), LabelPair("serial_number", d.serialNumber)]
  {
    IntoLabels([("device", d.device), ("model", d.model), ("serial_number", d.serialNumber)])
  }

  /** The families one NVMe record adds to `families`: its three gauges, then its seven counters. */
  function NvmeFamilies(families: seq<MetricFamily>, n: NvmeDevice): seq<MetricFamily> {
    var l := MakeLabels(n.device);
    MaybeCounters(MaybeGauges(families, NVME_GAUGES, l, NvmeGaugeValues(n)), NVME_COUNTERS, l, NvmeCounterValues(n))
  }

  /** The families one SATA record adds: six gauges (temperatures, pending and reallocated
      sectors, wear level), then six counters. */
  function SataFamilies(families: seq<MetricFamily>, s: SataDevice): seq<MetricFamily> {
    var l := MakeLabels(s.device);
    MaybeCounters(MaybeGauges(families, SATA_GAUGES, l, SataGaugeValues(s)), SATA_COUNTERS, l, SataCounterValues(s))
  }

  function AllNvme(families: seq<MetricFamily>, ns: seq<NvmeDevice>): seq<MetricFamily> {
    if ns == [] then families else NvmeFamilies(AllNvme(families, ns[..|ns| - 1]), ns[|ns| - 1])
  }

  function AllSata(families: seq<MetricFamily>, ss: seq<SataDevice>): seq<MetricFamily> {
    if ss == [] then families else SataFamilies(AllSata(families, ss[..|ss| - 1]), ss[|ss| - 1])
  }

  /** What `Metrics::collect` exposes for a snapshot: every NVMe record, then every SATA one. */
  function SmartFamilies(reports: SmartReports): seq<MetricFamily> {
    AllSata(AllNvme([], reports.nvme), reports.sata)
  }

  lemma AllNvmeStep(ns: seq<NvmeDevice>, i: nat)
    requires i < |ns|
    ensures AllNvme([], ns[..i + 1]) == NvmeFamilies(AllNvme([], ns[..i]), ns[i])
  {
    assert ns[..i + 1][..i] == ns[..i];
  }

  lemma AllSataStep(families: seq<MetricFamily>, ss: seq<SataDevice>, i: nat)
    requires i < |ss|
    ensures AllSata(families, ss[..i + 1]) == SataFamilies(AllSata(families, ss[..i]), ss[i])
  {
    assert ss[..i + 1][..i] == ss[..i];
  }

  /** `Metrics::collect`: nothing without a snapshot; otherwise the families of every NVMe record,
      then those of every SATA record. */
  method CollectFamilies(state: Option<SmartReports>) returns (families: seq<MetricFamily>)
    ensures state.None? ==> families == []
    ensures state.Some? ==> families == SmartFamilies(state.value)
  {
    if state.None? {
      return [];
    }
    var stats := state.value;
    families := [];
    for i := 0 to |stats.nvme|
      invariant families == AllNvme([], stats.nvme[..i])
    {
      AllNvmeStep(stats.nvme, i);
      families := NvmeFamilies(families, stats.nvme[i]);
    }
    assert stats.nvme[..|stats.nvme|] == stats.nvme;
    ghost var afterNvme := families;
    for i := 0 to |stats.sata|
      invariant families == AllSata(afterNvme, stats.sata[..i])
    {
      AllSataStep(afterNvme, stats.sata, i);
      families := SataFamilies(families, stats.sata[i]);
    }
    assert stats.sata[..|stats.sata|] == stats.sata;
  }

  /** One NVMe record: what was there is kept, one family per present reading is added (at most
      ten), the gauges before the counters, each with the record's labels and one sample. */
  lemma NvmeFamiliesSparse(families: seq<MetricFamily>, n: NvmeDevice)
    ensures var r, g := NvmeFamilies(families, n), |families| + Present(NvmeGaugeValues(n));
      |r| == g + Present(NvmeCounterValues(n)) && |r| <= |families| + 10 && r[..|families|] == families &&
      (forall k :: |families| <= k < g ==> r[k].kind == GAUGE) &&
      (forall k :: g <= k < |r| ==> r[k].kind == COUNTER) &&
      (forall k :: |families| <= k < |r| ==> |r[k].metrics| == 1 && r[k].metrics[0].labels == MakeLabels(n.device))
  {
    var l := MakeLabels(n.device);
    var mid := MaybeGauges(families, NVME_GAUGES, l, NvmeGaugeValues(n));
    MaybeGaugesSparse(families, NVME_GAUGES, l, NvmeGaugeValues(n));
    MaybeCountersSparse(mid, NVME_COUNTERS, l, NvmeCounterValues(n));
    var r := NvmeFamilies(families, n);
    assert r[..|mid|] == mid;
    forall k | |families| <= k < |mid|
      ensures r[k] == mid[k]
    {
      assert r[..|mid|][k] == r[k];
    }
    assert r[..|families|] == r[..|mid|][..|families|];
  }

  /** One SATA record: what was there is kept, one family per present reading is added (at most
      twelve), the six gauge readings before the six counters, each with the record's labels. */
  lemma SataFamiliesSparse(families: seq<MetricFamily>, s: SataDevice)
    ensures var r, g := SataFamilies(families, s), |families| + Present(SataGaugeValues(s));
      |r| == g + Present(SataCounterValues(s)) && |r| <= |families| + 12 && r[..|families|] == families &&
      (forall k :: |families| <= k < g ==> r[k].kind == GAUGE) &&
      (forall k :: g <= k < |r| ==> r[k].kind == COUNTER) &&
      (forall k :: |families| <= k < |r| ==> |r[k].metrics| == 1 && r[k].metrics[0].labels == MakeLabels(s.device))
  {
    var l := MakeLabels(s.device);
    var mid := MaybeGauges(families, SATA_GAUGES, l, SataGaugeValues(s));
    MaybeGaugesSparse(families, SATA_GAUGES, l, SataGaugeValues(s));
    MaybeCountersSparse(mid, SATA_COUNTERS, l, SataCounterValues(s));
    var r := SataFamilies(families, s);
    assert r[..|mid|] == mid;
    forall k | |families| <= k < |mid|
      ensures r[k] == mid[k]
    {
      assert r[..|mid|][k] == r[k];
    }
    assert r[..|families|] == r[..|mid|][..|families|];
  }

  /** A record with no reading, as `new` builds it, exposes nothing. */
  lemma EmptyRecordsExposeNothing(families: seq<MetricFamily>, d: Device)
    ensures SataFamilies(families, NewSata(d)) == families
    ensures NvmeFamilies(families, NewNvme(d)) == families
  {
    SataFamiliesSparse(families, NewSata(d));
    NvmeFamiliesSparse(families, NewNvme(d));
  }

  /** The pending-sector and reallocated-sector readings are exposed as gauges: a family of one
      SATA record that carries either name is the gauge of that reading. */
  lemma SectorCountsAreGauges(families: seq<MetricFamily>, s: SataDevice, k: nat)
    requires |families| <= k < |SataFamilies(families, s)|
    ensures SataFamilies(families, s)[k].name == SATA_PENDING.fqName ==>
      s.pendingSectors.Some? && SataFamilies(families, s)[k] == Gauge(SATA_PENDING, MakeLabels(s.device), s.pendingSectors.value as real)
    ensures SataFamilies(families, s)[k].name == SATA_REALLOCATED.fqName ==>
      s.reallocatedSectors.Some? && SataFamilies(families, s)[k] == Gauge(SATA_REALLOCATED, MakeLabels(s.device), s.reallocatedSectors.value as real)
  {
    var l := MakeLabels(s.device);
    var gv, cv := SataGaugeValues(s), SataCounterValues(s);
    var mid := MaybeGauges(families, SATA_GAUGES, l, gv);
    var r := SataFamilies(families, s);
    MaybeGaugesSparse(families, SATA_GAUGES, l, gv);
    MaybeCountersSparse(mid, SATA_COUNTERS, l, cv);
    if k < |mid| {
      MaybeGaugesFrom(families, SATA_GAUGES, l, gv);
      assert r[k] == mid[k] by {
        assert r[..|mid|][k] == r[k];
      }
      var j :| 0 <= j < |gv| && gv[j].Some? && mid[k] == Gauge(SATA_GAUGES[j], l, gv[j].value);
      assert j == 0 || j == 1 || j == 2 || j == 3 || j == 4 || j == 5;
    } else {
      MaybeCountersFrom(mid, SATA_COUNTERS, l, cv);
      var j :| 0 <= j < |cv| && cv[j].Some? && r[k] == Counter(SATA_COUNTERS[j], l, cv[j].value);
      assert j == 0 || j == 1 || j == 2 || j == 3 || j == 4 || j == 5;
    }
  }

  /** Every NVMe family comes before every SATA family. */
  lemma NvmeBeforeSata(reports: SmartReports)
    ensures var nvme := AllNvme([], reports.nvme);
      |nvme| <= |SmartFamilies(reports)| && SmartFamilies(reports)[..|nvme|] == nvme
  {
    AllSataKeeps(AllNvme([], reports.nvme), reports.sata);
  }

  lemma {:induction false} AllSataKeeps(families: seq<MetricFamily>, ss: seq<SataDevice>)
    ensures |families| <= |AllSata(families, ss)| <= |families| + 12 * |ss|
    ensures AllSata(families, ss)[..|families|] == families
    decreases |ss|
  {
    if ss != [] {
      var prev := AllSata(families, ss[..|ss| - 1]);
      AllSataKeeps(families, ss[..|ss| - 1]);
      SataFamiliesSparse(prev, ss[|ss| - 1]);
      var r := AllSata(families, ss);
      assert r[..|prev|] == prev;
      assert r[..|families|] == r[..|prev|][..|families|];
    }
  }

  lemma {:induction false} AllNvmeBound(families: seq<MetricFamily>, ns: seq<NvmeDevice>)
    ensures |families| <= |AllNvme(families, ns)| <= |families| + 10 * |ns|
    decreases |ns|
  {
    if ns != [] {
      AllNvmeBound(families, ns[..|ns| - 1]);
      NvmeFamiliesSparse(AllNvme(families, ns[..|ns| - 1]), ns[|ns| - 1]);
    }
  }

  /** At most ten families per NVMe disk and twelve per SATA disk. */
  lemma SmartFamiliesBound(reports: SmartReports)
    ensures |SmartFamilies(reports)| <= 10 * |reports.nvme| + 12 * |reports.sata|
  {
    AllNvmeBound([], reports.nvme);
    AllSataKeeps(AllNvme([], reports.nvme), reports.sata);
  }

  /** What registering yields: the no-op collector, or the SMART collector with the exposition's
      descriptors registered. */
  datatype Registration = NoOpCollector | SmartCollectorWith(registered: seq<Desc>)

  /** `Smart::register`: a disabled config registers nothing. */
  function Register(config: Config): (r: Registration)
    ensures !config.enabled <==> r == NoOpCollector
    ensures config.enabled ==> r == SmartCollectorWith(DESCS)
    ensures config.enabled ==> |r.registered| == 22 && SATA_PENDING in r.registered && NVME_TEMP in r.registered
  {
    if !config.enabled then NoOpCollector else SmartCollectorWith(DESCS)
  }

  /** `SmartCollector`: the snapshot shared with the exposition side. */
  class SmartCollector {
    var measurements: Option<SmartReports>

    constructor()
      ensures measurements == None
    {
      measurements := None;
    }

    /** `collect`, given what the data source returned: an error is returned and the snapshot
        kept; a report replaces the snapshot whatever its timestamp. */
    method Collect(source: Result<SmartReports>) returns (r: Result<()>)
      modifies this
      ensures source.Err? ==> r == Err(source.error) && measurements == old(measurements)
      ensures source.Ok? ==> r == Ok(()) && measurements == Some(source.value)
    {
      if source.Err? {
        return Err(source.error);
      }
      measurements := Some(source.value);
      r := Ok(());
    }
  }

  /** Unlike the other collectors, an older report still replaces a newer snapshot. */
  lemma OverwriteIgnoresTimestamps(stored: SmartReports, incoming: SmartReports)
    requires incoming.timestamp < stored.timestamp
    ensures UpdateIfNewer(Some(stored), incoming, (x: SmartReports) => x.timestamp) == Some(stored)
  {
  }
}
