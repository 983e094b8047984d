/** The disk I/O collector of src/metrics/disk_io.rs: the records the data source fills, which
    devices are kept, the snapshot the collector stores and the counters it exposes. */
module DiskIoMetrics {
  import opened Wrappers
  import opened Text
  import opened Seqs
  import opened MetricsUtil

  datatype Config = Config(enabled: bool)

  const DEFAULT_CONFIG: Config := Config(true)

  datatype DeviceIoStats = DeviceIoStats(deviceName: String, bytesRead: nat, bytesWritten: nat, readOps: nat, writeOps: nat)

  /** `timestamp` is the instant the data source read the counters, in milliseconds. */
  datatype DiskIoStats = DiskIoStats(timestamp: int, disks: seq<DeviceIoStats>)

  const BYTES_READ: Desc := Desc("system_disk_read_bytes_total", "Total bytes read", ["device"])
  const BYTES_WRITTEN: Desc := Desc("system_disk_written_bytes_total", "Total bytes written", ["device"])
  const READ_OPS: Desc := Desc("system_disk_read_ops_total", "Total read ops", ["device"])
  const WRITE_OPS: Desc := Desc("system_disk_write_ops_total", "Total write ops", ["device"])

  /** `Metrics::desc`. */
  const DESCS: seq<Desc> := [BYTES_READ, BYTES_WRITTEN, READ_OPS, WRITE_OPS]

  /** `should_collect`: loop and zram devices, NVMe names with a 'p' (partitions) and sdX names
      longer than three characters ending in a digit (partitions) are not collected. */
  predicate ShouldCollect(name: String) {
    if StartsWith(name, "loop") || StartsWith(name, "zram") then false
    else if StartsWith(name, "nvme") && RSplitOnce(name, 'p').Some? then false
    else if StartsWith(name, "sd") && |name| > 3 && IsDigit(name[|name| - 1]) then false
    else true
  }

  /** The three exclusion rules, with `rsplit_once('p').is_some()` read as "contains a 'p'". */
  lemma ShouldCollectRules(name: String)
    ensures ShouldCollect(name) <==>
      !StartsWith(name, "loop") && !StartsWith(name, "zram") &&
      !(StartsWith(name, "nvme") && 'p' in name) &&
      !(StartsWith(name, "sd") && |name| > 3 && IsDigit(name[|name| - 1]))
  {
  }

  /** Whole disks are kept and their partitions dropped. */
  lemma ShouldCollectExamples()
    ensures ShouldCollect("nvme0n1") && !ShouldCollect("nvme0n1p1")
    ensures ShouldCollect("sda") && !ShouldCollect("sda1")
    ensures !ShouldCollect("loop0") && !ShouldCollect("zram0")
  {
    NvmeExamples();
    SdExamples();
    assert "loop" <= "loop0" && "zram" <= "zram0";
  }

  lemma NvmeExamples()
    ensures ShouldCollect("nvme0n1") && !ShouldCollect("nvme0n1p1")
  {
    var disk, part := "nvme0n1", "nvme0n1p1";
    assert !("loop" <= disk) && !("zram" <= disk) && !("sd" <= disk) by { assert disk[0] == 'n'; }
    assert !("loop" <= part) && !("zram" <= part) by { assert part[0] == 'n'; }
    assert "nvme" <= disk && "nvme" <= part;
    assert 'p' !in disk;
    assert part[7] == 'p';
  }

  lemma SdExamples()
    ensures ShouldCollect("sda") && !ShouldCollect("sda1")
  {
    var disk, part := "sda", "sda1";
    assert !("loop" <= disk) && !("zram" <= disk) && !("nvme" <= disk) by { assert disk[0] == 's'; }
    assert !("loop" <= part) && !("zram" <= part) && !("nvme" <= part) by { assert part[0] == 's'; }
    assert "sd" <= part && IsDigit(part[3]);
  }

  predicate Collected(d: DeviceIoStats) {
    ShouldCollect(d.deviceName)
  }

  /** The stats after `retain(should_collect)`. */
  function Retained(stats: DiskIoStats): (r: DiskIoStats)
    ensures r.timestamp == stats.timestamp
  {
    stats.(disks := Filter(stats.disks, Collected))
  }

  /** `retain` keeps exactly the accepted disks, in their order. */
  lemma RetainedKeepsAccepted(stats: DiskIoStats, d: DeviceIoStats)
    ensures d in Retained(stats).disks <==> d in stats.disks && ShouldCollect(d.deviceName)
  {
    FilterComplete(stats.disks, Collected, d);
  }

  /** `disks.retain(...)`: one pass that keeps the accepted disks in order. */
  method Retain(disks: seq<DeviceIoStats>) returns (kept: seq<DeviceIoStats>)
    ensures kept == Filter(disks, Collected)
  {
    kept := [];
    for i := 0 to |disks|
      invariant kept == Filter(disks[..i], Collected)
    {
      assert disks[..i + 1][..i] == disks[..i];
      if ShouldCollect(disks[i].deviceName) {
        kept := kept + [disks[i]];
      }
    }
    assert disks[..|disks|] == disks;
  }

  function Timestamp(stats: DiskIoStats): int {
    stats.timestamp
  }

  /** `DiskIoCollector`: the snapshot shared with the exposition side. */
  class DiskIoCollector {
    var measurement: Option<DiskIoStats>

    constructor()
      ensures measurement == None
    {
      measurement := None;
    }

    /** `collect`, given what the data source returned: an error is passed on before the store is
        touched; otherwise the filtered stats replace the store if it is empty or they are newer. */
    method Collect(source: Result<DiskIoStats>) returns (r: Result<()>)
      modifies this
      ensures source.Err? ==> r == Err(source.error) && measurement == old(measurement)
      ensures source.Ok? ==> r == Ok(()) && measurement == UpdateIfNewer(old(measurement), Retained(source.value), Timestamp)
    {
      if source.Err? {
        return Err(source.error);
      }
      var stats := source.value;
      var kept := Retain(stats.disks);
      stats := stats.(disks := kept);
      match measurement {
        case None =>
          measurement := Some(stats);
        case Some(prev) =>
          if prev.timestamp < stats.timestamp {
            measurement := Some(stats);
          }
      }
      r := Ok(());
    }
  }

  function DeviceLabels(d: DeviceIoStats): (l: seq<LabelPair>)
    ensures l == [LabelPair("device", d.deviceName)]
  {
    IntoLabels([("device", d.deviceName)])
  }

  /** The four counters of one disk, in descriptor order. */
  function DeviceFamilies(d: DeviceIoStats): (r: seq<MetricFamily>)
    ensures |r| == 4
    ensures forall j :: 0 <= j < 4 ==>
      r[j].kind == COUNTER && r[j].name == DESCS[j].fqName &&
      |r[j].metrics| == 1 && r[j].metrics[0].labels == [LabelPair("device", d.deviceName)]
    ensures r[0].metrics[0].value == d.bytesRead as real && r[1].metrics[0].value == d.bytesWritten as real
    ensures r[2].metrics[0].value == d.readOps as real && r[3].metrics[0].value == d.writeOps as real
  {
    var l := DeviceLabels(d);
    [Counter(BYTES_READ, l, d.bytesRead as real), Counter(BYTES_WRITTEN, l, d.bytesWritten as real),
     Counter(READ_OPS, l, d.readOps as real), Counter(WRITE_OPS, l, d.writeOps as real)]
  }

  /** What `Metrics::collect` exposes for a list of disks. */
  function DiskFamilies(disks: seq<DeviceIoStats>): seq<MetricFamily> {
    if disks == [] then [] else DiskFamilies(disks[..|disks| - 1]) + DeviceFamilies(disks[|disks| - 1])
  }

  lemma {:induction false} DiskFamiliesLength(disks: seq<DeviceIoStats>)
    ensures |DiskFamilies(disks)| == 4 * |disks|
    decreases |disks|
  {
    if disks != [] {
      DiskFamiliesLength(disks[..|disks| - 1]);
    }
  }

  /** Four counters per disk: family 4i+j is descriptor j's counter for disk i. */
  lemma {:induction false} DiskFamilyAt(disks: seq<DeviceIoStats>, i: nat, j: nat)
    requires i < |disks| && j < 4
    ensures |DiskFamilies(disks)| == 4 * |disks|
    ensures DiskFamilies(disks)[4 * i + j] == DeviceFamilies(disks[i])[j]
    decreases |disks|
  {
    var init := disks[..|disks| - 1];
    var pre, last := DiskFamilies(init), DeviceFamilies(disks[|disks| - 1]);
    assert DiskFamilies(disks) == pre + last;
    DiskFamiliesLength(init);
    if i < |init| {
      DiskFamilyAt(init, i, j);
      assert init[i] == disks[i];
      assert (pre + last)[4 * i + j] == pre[4 * i + j];
    } else {
      assert (pre + last)[4 * i + j] == last[j];
    }
  }

  /** Every exposed sample is a counter labelled with exactly its disk's name, under the
      descriptor of its position. */
  lemma DiskFamiliesAreCounters(disks: seq<DeviceIoStats>, i: nat, j: nat)
    requires i < |disks| && j < 4
    ensures 4 * i + j < |DiskFamilies(disks)|
    ensures var mf := DiskFamilies(disks)[4 * i + j];
      mf.kind == COUNTER && mf.name == DESCS[j].fqName && |mf.metrics| == 1 &&
      mf.metrics[0].labels == [LabelPair("device", disks[i].deviceName)]
  {
    DiskFamilyAt(disks, i, j);
  }

  /** `Metrics::collect`: nothing without a snapshot, else four counters per stored disk. */
  method CollectFamilies(state: Option<DiskIoStats>) returns (mf: seq<MetricFamily>)
    ensures state.None? ==> mf == []
    ensures state.Some? ==> mf == DiskFamilies(state.value.disks)
  {
    if state.None? {
      return [];
    }
    var disks := state.value.disks;
    mf := [];
    for i := 0 to |disks|
      invariant mf == DiskFamilies(disks[..i])
    {
      assert disks[..i + 1][..i] == disks[..i];
      var device := disks[i];
      var l := DeviceLabels(device);
      mf := MaybeCounter(mf, BYTES_READ, l, Some(device.bytesRead as real));
      mf := MaybeCounter(mf, BYTES_WRITTEN, l, Some(device.bytesWritten as real));
      mf := MaybeCounter(mf, READ_OPS, l, Some(device.readOps as real));
      mf := MaybeCounter(mf, WRITE_OPS, l, Some(device.writeOps as real));
    }
    assert disks[..|disks|] == disks;
  }
}
