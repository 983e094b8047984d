# hephaestus telemetry agent core, in Dafny

hephaestus is a host telemetry agent. It reads kernel files, runs `smartctl`, talks to a NUT
(Network UPS Tools) server and to the Docker daemon, keeps the last snapshot of each source, and
serves the snapshots as Prometheus metrics on `/metrics`. This project models the core of that
agent:

- the data sources that turn raw text into records:
  - `/proc/stat` (CPU usage, including the two-reading sampler);
  - `cpufreq` (CPU frequency);
  - `/proc/meminfo`;
  - `/proc/diskstats`;
  - `/proc/net/dev`;
  - the ZFS `arcstats` and `objset-*` kstat files;
- the Docker CPU% estimator;
- SMART decoding of `smartctl` JSON;
- the NUT `LIST UPS` / `LIST VAR` protocol and the decoding of UPS variables;
- the selection predicates that decide which disks and network interfaces are exported;
- the snapshot store that collectors update when a newer snapshot arrives ("monotonic replace");
- the sparse emission of metric families (an absent reading emits nothing);
- the one-refresh-per-second gate of the `/metrics` handler;
- the `HardcodedReader` test double that the data sources read through.

Layout: one module per source file, plus three shared modules.

- `Wrappers` holds `Option` and `Result`.
- `Seqs` holds filter, filter-map and count over sequences.
- `Text` gives the Rust `str` operations the parsers use, with their contracts: `lines`,
  `split_whitespace`, `trim`, `split_once`, `rsplit_once`, `splitn`, `trim_matches`,
  `parse::<u64>`, and a decimal reading of `parse::<f64>`.

How the model is written:

- Parsers are functions over lines and tokens. The loops that run them are methods proved equal
  to those functions.
- Each collector is a class whose store is a field. Its `Collect` method states the new store.
- Time is an integer count of milliseconds, supplied by the caller.
- A file read is passed in as its outcome (`IoResult`), except in the CPU sampler, which reads
  through a `HardcodedReader` object, as its tests do.

## Model

| member | source | states |
|---|---|---|
| Reader.Peek | src/datasource/mod.rs:69-97 | an unknown path fails with NotFound; a known path succeeds exactly when a queued response remains at that position |
| Reader.HardcodedReader.constructor | src/datasource/mod.rs:50-54 | a new reader has no mocked paths |
| Reader.HardcodedReader.AddResponse | src/datasource/mod.rs:56-65 | a response is appended to its path's queue; the read position of a known path is kept; a new path starts at position 0 |
| Reader.HardcodedReader.ReadToString | src/datasource/mod.rs:69-97 | returns the response at the path's read position and advances the position by one; an unknown path ("File not found") or a used-up queue ("Response not mocked") is an error that leaves the reader unchanged |
| Reader.PeekAfterRead | src/datasource/mod.rs:91-94 | after a successful read, what was queued one further ahead is what the next read returns: responses come back in insertion order |
| Reader.ReadsInInsertionOrder | src/datasource/mod.rs:56-94 | two responses added for a path come back in the order they were added, a third read is "Response not mocked" and a path never added is "File not found" |
| MetricsUtil.IntoLabels | src/metrics/util.rs:5-15 | one label per pair, in order, with the pair's name and value |
| MetricsUtil.PairsOfIntoLabels | src/metrics/util.rs:5-15 | no information is lost: reading the labels back gives the original pairs |
| MetricsUtil.Gauge | src/metrics/util.rs:47-62 | a GAUGE family with the descriptor's name and help, holding exactly one metric with the given labels and value |
| MetricsUtil.Counter | src/metrics/util.rs:64-79 | a COUNTER family with the descriptor's name and help, holding exactly one metric with the given labels and value |
| MetricsUtil.GaugeCounterDifferInKind | src/metrics/util.rs:47-79 | the gauge and the counter of the same reading differ in their kind and in nothing else |
| MetricsUtil.MaybeGauge | src/metrics/util.rs:17-28 | an absent value leaves the families untouched; a present one appends exactly its gauge and keeps every earlier family |
| MetricsUtil.MaybeCounter | src/metrics/util.rs:30-45 | an absent value leaves the families untouched; a present one appends exactly its counter and keeps every earlier family |
| MetricsUtil.AsValue | src/metrics/util.rs:25-26 | the u64 reading converted to a sample value: present exactly when the reading is, with the same number |
| MetricsUtil.MaybeGaugesSparse | src/metrics/util.rs:17-28 | a run of optional gauges appends one family per present value and none per absent one; each appended family is a one-metric gauge with the shared labels |
| MetricsUtil.MaybeGaugesFrom | src/metrics/util.rs:17-28 | every appended family is the gauge of some present value |
| MetricsUtil.MaybeCountersSparse | src/metrics/util.rs:30-45 | a run of optional counters appends one family per present value and none per absent one; each is a one-metric counter with the shared labels |
| MetricsUtil.MaybeCountersFrom | src/metrics/util.rs:30-45 | every appended family is the counter of some present value |
| MetricsUtil.UpdateIfNewer | src/metrics/disk_io.rs:213-221 | after an update the store always holds a snapshot |
| MetricsUtil.UpdateIfNewerReplaces | src/metrics/disk_io.rs:213-221 | the incoming snapshot is stored when the store is empty or holds a strictly older one; an incoming snapshot that is not newer leaves the store as it was |
| MetricsUtil.UpdateIfNewerMonotone | src/metrics/ups.rs:276-281 | the stored timestamp never goes back: after an update it is the larger of the old and incoming timestamps |
| MetricsUtil.UpdateIfNewerIdempotent | src/metrics/network_io.rs:222-224 | delivering the same snapshot twice has the same effect as delivering it once |
| ScrapeHandler.Elapsed | src/server/handler.rs:10-12 | the time since the last collection, saturating at 0 when the clock reads earlier than the last collection |
| ScrapeHandler.AtMostOnePerSecond | src/server/handler.rs:10-15 | no refresh happens within 1000 ms after a collection, whatever the guard |
| ScrapeHandler.RefreshCondition | src/server/handler.rs:10-12 | a held refresh guard never refreshes; with the guard free, a refresh happens once strictly more than 1000 ms have passed; exactly 1000 ms is not enough |
| ScrapeHandler.ScrapeState.constructor | src/server/handler.rs:10-13 | the state starts with the given last-collection time and no collector called yet |
| ScrapeHandler.ScrapeState.RefreshMeasurements | src/server/handler.rs:21-32 | every collector is called exactly once; failures are counted (logged) and none is propagated; the last-collection time is not touched |
| ScrapeHandler.ScrapeState.Metrics | src/server/handler.rs:9-18 | refreshes exactly when the gate allows; a refresh records the current time and calls every collector once; otherwise no state changes |
| CpuFrequencySource.Step | src/datasource/cpu_frequency.rs:32-47 | a readable core appends its frequency; NotFound stops the probe with the frequencies so far; any other error fails the probe at that core |
| CpuFrequencySource.CpyFreq | src/datasource/cpu_frequency.rs:22-56 | the probing loop returns exactly CpuFreq of the same reads |
| CpuFrequencySource.StoppedStays | src/datasource/cpu_frequency.rs:41-44 | once a core is missing no later core is read (the loop breaks) |
| CpuFrequencySource.FailedStays | src/datasource/cpu_frequency.rs:46 | once a read fails for another reason the result stays that failure (the function returns) |
| CpuFrequencySource.GoingReadsAll | src/datasource/cpu_frequency.rs:26-38 | while every core so far was readable, the list holds one frequency per core, in core order |
| CpuFrequencySource.StoppedAtMissing | src/datasource/cpu_frequency.rs:41-44 | a stopped probe ends at the first missing core, and every earlier core was read |
| CpuFrequencySource.ProbeOfPresentCores | src/datasource/cpu_frequency.rs:26-48 | when all the first n cores are readable the probe is still going after n cores |
| CpuFrequencySource.CpuFreqSuccess | src/datasource/cpu_frequency.rs:22-56 | a success holds between 1 and 256 frequencies, the k-th from core k's file; a list shorter than 256 ends at a NotFound core |
| CpuFrequencySource.NoCoresIsError | src/datasource/cpu_frequency.rs:50-52 | when core 0 is missing the result is "No CPU frequency sensors found" |
| CpuFrequencySource.OtherErrorFails | src/datasource/cpu_frequency.rs:46 | a non-NotFound error on core c, after c readable cores, is the result, naming core c |
| CpuFrequencySource.FailedAt | src/datasource/cpu_frequency.rs:45-47 | the probe over all 256 cores ends failed at the first core whose read fails with another error |
| CpuFrequencySource.CpuFreqOfPresentCores | src/datasource/cpu_frequency.rs:26-54 | n readable cores followed by a missing one give exactly n frequencies, in core order |
| CpuFrequencySource.FourCores | src/datasource/cpu_frequency.rs:33-38 | four files holding kHz values give the four values times 1000, in Hz |
| CpuFrequencySource.FourCoresExample | src/datasource/cpu_frequency.rs:66-81 | the four-core test fixture yields the test's expected frequencies |
| CpuFrequencySource.KhzFile | src/datasource/cpu_frequency.rs:34-37 | a file holding a decimal kHz value is read as 1000 times that value |
| CpuUsageSource.RowOfTokens | src/datasource/cpu_usage.rs:123-130 | always ten counters; counter j is token j+1 when that token is a valid u64, and 0 when it is missing or malformed |
| CpuUsageSource.ParseRow | src/datasource/cpu_usage.rs:123-130 | every CPU line yields exactly ten counters |
| CpuUsageSource.ProcStatRows | src/datasource/cpu_usage.rs:119-132 | one ten-counter row per CPU line and none for other lines |
| CpuUsageSource.ParseProcStat | src/datasource/cpu_usage.rs:119-132 | every parsed row has ten counters |
| CpuUsageSource.ProcStatRowsAppend | src/datasource/cpu_usage.rs:119-132 | lines are parsed independently, and rows keep the order of their lines |
| CpuUsageSource.ProcStatTestShape | src/datasource/cpu_usage.rs:173-198 | the aggregate line and two core lines give three rows in order; the `intr` and `ctxt` lines give none |
| CpuUsageSource.RowOfTokensExample | src/datasource/cpu_usage.rs:123-127 | a short row's missing columns read as 0 |
| CpuUsageSource.Deltas | src/datasource/cpu_usage.rs:135-138 | one saturating delta per column, ten in all |
| CpuUsageSource.CalculateUsage | src/datasource/cpu_usage.rs:134-164 | the array loop over the counters computes exactly the usage and breakdown that Usage specifies |
| CpuUsageSource.UsageBounds | src/datasource/cpu_usage.rs:142-163 | usage lies in [0, 1] and each of the ten shares (user, nice, system, idle, iowait, irq, softirq, steal, guest, guest_nice) is non-negative |
| CpuUsageSource.ZeroTotalGivesZero | src/datasource/cpu_usage.rs:143-145 | no elapsed ticks gives usage 0 and an all-zero breakdown |
| CpuUsageSource.AccountedSharesSumToOne | src/datasource/cpu_usage.rs:142-160 | the eight accounted shares (user to steal) add up to 1 |
| CpuUsageSource.BusyIsNonIdleShare | src/datasource/cpu_usage.rs:160-163 | usage is the sum of the six non-idle, non-iowait shares, so the clamp at 0 never changes it |
| CpuUsageSource.GuestColumnsOutsideDivisor | src/datasource/cpu_usage.rs:140-142 | the guest columns change neither the total nor the usage, since they are already counted in user and nice |
| CpuUsageSource.StandardUsageExample | src/datasource/cpu_usage.rs:216-236 | the standard test vector gives usage 0.3 with its expected shares |
| CpuUsageSource.SaturatingExample | src/datasource/cpu_usage.rs:274-281 | counters that went backwards give usage 0 instead of an underflow |
| CpuUsageSource.AllColumnsExample | src/datasource/cpu_usage.rs:327-411 | every column lands in its own share: usage 0.75, with guest and guest_nice over the 360-tick total |
| CpuUsageSource.CoreUsages | src/datasource/cpu_usage.rs:81-92 | one per-core entry for every row after the aggregate row |
| CpuUsageSource.EmptyReadingsPanic | src/datasource/cpu_usage.rs:72-80 | as written, two readings with no CPU rows pass the row-count check and then panic on `current[0]` |
| CpuUsageSource.Measure | src/datasource/cpu_usage.rs:72-92 | succeeds exactly when both readings have the same, non-zero number of rows; the total is the usage of the aggregate rows, and core k is the usage of rows k+1, numbered k |
| CpuUsageSource.MeasureAgreesWhereSourceReturns | src/datasource/cpu_usage.rs:72-92 | the source returns on every input except two empty readings, and where it returns it agrees with Measure |
| CpuUsageSource.DatasourceFirstCallExample | src/datasource/cpu_usage.rs:284-325 | the datasource test's two readings give total usage 0.5 with one core |
| CpuUsageSource.DatasourceSecondCallExample | src/datasource/cpu_usage.rs:284-325 | the datasource test's second pair of readings gives total usage 0.8, all of it system time, and no user time |
| CpuUsageSource.ReadingTime | src/datasource/cpu_usage.rs:64-68 | the second reading is taken no earlier than 250 ms after the baseline, and without waiting when that time has already passed |
| CpuUsageSource.CoreCountChangeKeepsBaseline | src/datasource/cpu_usage.rs:72-78 | a reading whose row count differs from the baseline's is an error and keeps the old baseline |
| CpuUsageSource.SampleAdvancesBaselineOnlyOnSuccess | src/datasource/cpu_usage.rs:56-103 | a failed call keeps the baseline; a successful one stores the reading just taken, time-stamped at least 250 ms after the old baseline |
| CpuUsageSource.SecondCallMeasuresAgainstFirstReading | src/datasource/cpu_usage.rs:56-109 | from an empty baseline the first call reads twice and measures the second reading against the first; the next call measures a third reading against the second; three reads in all |
| CpuUsageSource.MeasureReadings | src/datasource/cpu_usage.rs:72-92 | the per-core loop returns exactly Measure of the two readings |
| CpuUsageSource.CpuSampler.constructor | src/datasource/cpu_usage.rs:35-40 | a new sampler has no baseline |
| CpuUsageSource.CpuSampler.CpuUsage | src/datasource/cpu_usage.rs:48-111 | result, new baseline and reads consumed from the reader are exactly those of Sample on the old state |
| MemoryUsageSource.ParseLine | src/datasource/memory_usage.rs:18-47 | a line without ':' gives nothing; a key, when given, is the text before the first ':' |
| MemoryUsageSource.ParseFormattedLine | src/datasource/memory_usage.rs:18-47 | a line "key: padding value [unit]" yields the key and the value's u64 reading (0 when the value is not a number) scaled by the unit, and nothing for an unknown unit |
| MemoryUsageSource.NonNumericValueIsZero | src/datasource/memory_usage.rs:24-46 | a value that is not a number reads as 0 and the line is still kept under its key when the unit is "", "kB" or "mB" |
| MemoryUsageSource.ParseDigitsLine | src/datasource/memory_usage.rs:18-47 | a line whose value is digits yields the key and the digits' value scaled by the unit, and nothing for an unknown unit |
| MemoryUsageSource.ParseFormattedValue | src/datasource/memory_usage.rs:24-44 | a padded value with an optional unit reads back as the value's u64 reading, 0 when it is not a number, scaled by the unit |
| MemoryUsageSource.ParseValueWithUnit | src/datasource/memory_usage.rs:24-28 | "value unit" after padding splits into exactly that value and that unit |
| MemoryUsageSource.LookupLastWins | src/datasource/memory_usage.rs:60-70 | a later line for a key replaces its value; other keys' lines and unparsable lines leave it |
| MemoryUsageSource.LookupIsLastEntry | src/datasource/memory_usage.rs:60-70 | a key's value is that of its last parsed line |
| MemoryUsageSource.LookupAbsent | src/datasource/memory_usage.rs:56-57 | a key that never appears stays 0 |
| MemoryUsageSource.SwapAccounting | src/datasource/memory_usage.rs:72 | used + free = total, unless free exceeds total, in which case used is 0 |
| MemoryUsageSource.RamAccounting | src/datasource/memory_usage.rs:102-106 | cache = Cached + SReclaimable; used + free + buffers + cache = total unless those exceed it, in which case used is 0 |
| MemoryUsageSource.Swap | src/datasource/memory_usage.rs:55-74 | a read error is returned; otherwise the swap record of the file's lines |
| MemoryUsageSource.ScanSwap | src/datasource/memory_usage.rs:60-70 | the line loop ends with the last SwapTotal and SwapFree values |
| MemoryUsageSource.Ram | src/datasource/memory_usage.rs:77-116 | a read error is returned; otherwise the RAM record of the file's lines |
| MemoryUsageSource.ScanRam | src/datasource/memory_usage.rs:82-100 | the line loop ends with the last value of each of the six keys |
| MemoryUsageSource.MemInfoExample | src/datasource/memory_usage.rs:184-210 | the test's meminfo values give the expected RAM and swap figures in bytes |
| DiskIoSource.DeviceOfRow | src/datasource/disk_io.rs:31-87 | a row is kept exactly when it has a device name that is not virtual; reads and writes come from columns 3 and 7, bytes are 512 × the sectors in columns 5 and 9, and a missing or malformed column reads as 0 |
| DiskIoSource.DiskIo | src/datasource/disk_io.rs:26-91 | a read error is returned; otherwise the devices of the file, time-stamped after the read |
| DiskIoSource.ScanDisks | src/datasource/disk_io.rs:30-88 | the line loop returns exactly Disks |
| DiskIoSource.DisksProperties | src/datasource/disk_io.rs:39-50 | no virtual device is reported, and there is one device per accepted line |
| DiskIoSource.DisksAppend | src/datasource/disk_io.rs:30-88 | lines are parsed independently, in order |
| DiskIoSource.DiskLineRoundTrip | src/datasource/disk_io.rs:31-87 | formatting a diskstats line and parsing it gives back the device and its counters, with sectors as 512-byte units; a virtual device gives nothing |
| DiskIoSource.DeviceOfNumbers | src/datasource/disk_io.rs:53-79 | the tokens of a diskstats row give back its device and counters |
| DiskIoSource.SdaExample | src/datasource/disk_io.rs:100-112 | the `sda` line of the test yields the test's expected counters |
| DiskIoSource.DiskStatsFixture | src/datasource/disk_io.rs:100-143 | the ten-line diskstats sample gives exactly nvme0n1, nvme0n1p1, sda and sda1, in that order, with the test's byte and operation counts; the loop, zram and md1p1 lines are skipped |
| DiskIoMetrics.ShouldCollectRules | src/metrics/disk_io.rs:180-199 | a disk is exported exactly when it is not loop*, not zram*, not an NVMe partition (nvme* containing 'p') and not a SCSI partition (sd* longer than three characters ending in a digit) |
| DiskIoMetrics.ShouldCollectExamples | src/metrics/disk_io.rs:180-199 | nvme0n1 and sda are exported; nvme0n1p1, sda1, loop0 and zram0 are not |
| DiskIoMetrics.Retained | src/metrics/disk_io.rs:209-211 | filtering keeps the snapshot's timestamp |
| DiskIoMetrics.RetainedKeepsAccepted | src/metrics/disk_io.rs:209-211 | a device survives filtering exactly when it was reported and passes the selection rule |
| DiskIoMetrics.Retain | src/metrics/disk_io.rs:209-211 | the retain loop keeps exactly the selected devices, in order |
| DiskIoMetrics.DiskIoCollector.constructor | src/metrics/disk_io.rs:169-174 | the store starts empty |
| DiskIoMetrics.DiskIoCollector.Collect | src/metrics/disk_io.rs:207-224 | a data-source error is returned and the store is kept; fresh stats are filtered and then stored if newer |
| DiskIoMetrics.DeviceLabels | src/metrics/disk_io.rs:97-99 | a single label, `device`, holding the device name |
| DiskIoMetrics.DeviceFamilies | src/metrics/disk_io.rs:119-125 | four counter families per device, with the descriptor names in order and the device label, whose values are the bytes read, bytes written, reads and writes |
| DiskIoMetrics.DiskFamiliesLength | src/metrics/disk_io.rs:112-128 | four families per device |
| DiskIoMetrics.DiskFamilyAt | src/metrics/disk_io.rs:112-128 | family 4i+j is the j-th family of device i |
| DiskIoMetrics.DiskFamiliesAreCounters | src/metrics/disk_io.rs:112-128 | every exported family is a one-metric counter labelled with its device |
| DiskIoMetrics.CollectFamilies | src/metrics/disk_io.rs:112-128 | an empty store exports nothing; otherwise the families of the stored devices |
| NetworkIoSource.InterfaceOf | src/datasource/network_io.rs:35-57 | the name is trimmed; bytes and packets received are fields 0 and 1, sent are fields 8 and 9; a missing or malformed field reads as 0 |
| NetworkIoSource.NetLine | src/datasource/network_io.rs:30-38 | blank lines are skipped; other lines yield an interface exactly when they contain ':' |
| NetworkIoSource.NetworkIo | src/datasource/network_io.rs:24-64 | a read error is returned; otherwise the interfaces of the file, time-stamped after the read |
| NetworkIoSource.ScanNetDev | src/datasource/network_io.rs:27-58 | the line loop returns exactly Interfaces |
| NetworkIoSource.HeadersSkipped | src/datasource/network_io.rs:29 | the two header lines never yield an interface |
| NetworkIoSource.InterfacesAppend | src/datasource/network_io.rs:29-58 | lines after the headers are parsed independently, in order |
| NetworkIoSource.NoColonSkipped | src/datasource/network_io.rs:35-38 | a line without ':' is skipped |
| NetworkIoSource.NetDevLineRoundTrip | src/datasource/network_io.rs:30-57 | formatting a `/proc/net/dev` line and parsing it gives back the interface name and its four counters |
| NetworkIoSource.Enp1s0Example | src/datasource/network_io.rs:73-81 | the `enp1s0` line of the test yields the test's expected counters |
| NetworkIoSource.NetDevFixture | src/datasource/network_io.rs:73-109 | the net/dev sample gives lo, enp1s0 and wlp2s0, in that order, with the test's counters, whatever its two header lines |
| NetworkIoMetrics.WatchListDecides | src/metrics/network_io.rs:189-192 | with a watch list, an interface is exported exactly when it is on the list, whatever the ignore list says |
| NetworkIoMetrics.IgnoreListDecides | src/metrics/network_io.rs:189-199 | without a watch list, an interface is exported unless it is on the ignore list |
| NetworkIoMetrics.DefaultWatchesBondAndTailscale | src/metrics/network_io.rs:19-27 | by default only bond0 and tailscale1 are exported |
| NetworkIoMetrics.Retained | src/metrics/network_io.rs:214-218 | filtering keeps the snapshot's timestamp |
| NetworkIoMetrics.RetainedKeepsAccepted | src/metrics/network_io.rs:214-218 | an interface survives filtering exactly when it was reported and is selected |
| NetworkIoMetrics.Retain | src/metrics/network_io.rs:214-218 | the retain loop keeps exactly the selected interfaces, in order |
| NetworkIoMetrics.NetworkIoCollector.constructor | src/metrics/network_io.rs:177-183 | the collector keeps its configuration and starts with an empty store |
| NetworkIoMetrics.NetworkIoCollector.Collect | src/metrics/network_io.rs:208-227 | always succeeds; fresh stats are filtered and then stored if newer |
| NetworkIoMetrics.InterfaceFamilies | src/metrics/network_io.rs:114-130 | four counter families per interface, with the descriptor names in order and the interface as the `device` label, whose values are the bytes sent, bytes received, packets sent and packets received |
| NetworkIoMetrics.NetworkFamiliesLength | src/metrics/network_io.rs:107-133 | four families per interface |
| NetworkIoMetrics.NetworkFamilyAt | src/metrics/network_io.rs:107-133 | family 4i+j is the j-th family of interface i |
| NetworkIoMetrics.CollectFamilies | src/metrics/network_io.rs:107-133 | an empty store exports nothing; otherwise the families of the stored interfaces |
| ZfsArcSource.Reading | src/datasource/zfs_arc_stat.rs:40-58 | a line contributes exactly when it has a third token that is a valid u64, and then contributes its name and that value |
| ZfsArcSource.Stat | src/datasource/zfs_arc_stat.rs:40-58 | a statistic is always a u64 |
| ZfsArcSource.ReadArcStats | src/datasource/zfs_arc_stat.rs:24-64 | a read error is returned; otherwise the five statistics of the file, time-stamped after the read |
| ZfsArcSource.ScanArcStats | src/datasource/zfs_arc_stat.rs:40-61 | the line loop returns exactly the statistics of the file |
| ZfsArcSource.StatAppend | src/datasource/zfs_arc_stat.rs:40-61 | a line with a valid value sets its own statistic and leaves the others |
| ZfsArcSource.StatAbsent | src/datasource/zfs_arc_stat.rs:27-34 | a statistic no line names stays 0 |
| ZfsArcSource.ArcRoundTrip | src/datasource/zfs_arc_stat.rs:86-101 | writing the five statistics as an arcstats file and reading it back gives them exactly |
| ZfsArcSource.StatsOfArcRows | src/datasource/zfs_arc_stat.rs:40-58 | the five named rows give the five statistics in their fields |
| ZfsArcSource.LastReadingIsLastRow | src/datasource/zfs_arc_stat.rs:53-58 | the last valid line for a statistic decides it |
| ZfsArcSource.MalformedValueExample | src/datasource/zfs_arc_stat.rs:133-144 | a malformed value leaves its statistic at 0 while a later valid line still counts |
| ZfsDatasetSource.StatsOfRows | src/datasource/zfs_dataset.rs:19-53 | a record exists exactly when every row has a value and the last dataset_name is non-empty and has no '@' (not a snapshot); it carries the pool, that name and the four counters |
| ZfsDatasetSource.Counter | src/datasource/zfs_dataset.rs:21-35 | a counter is below 2^64, and one that no row names reads as 0 |
| ZfsDatasetSource.ParseObjset | src/datasource/zfs_dataset.rs:19-53 | parsing an objset file gives exactly ObjsetStats of its lines |
| ZfsDatasetSource.ScanObjset | src/datasource/zfs_dataset.rs:24-38 | the line loop gives exactly ObjsetStats |
| ZfsDatasetSource.ExtraStatsIgnored | src/datasource/zfs_dataset.rs:30-37 | rows for other kstat fields do not change the result |
| ZfsDatasetSource.ObjsetRoundTrip | src/datasource/zfs_dataset.rs:115-135 | writing an objset file and parsing it gives back the dataset and its four counters, or nothing for a snapshot |
| ZfsDatasetSource.StatsOfFieldRows | src/datasource/zfs_dataset.rs:24-53 | the five field rows give the dataset and its counters, or nothing when the name is empty or a snapshot |
| ZfsDatasetSource.LastValueIsLastRow | src/datasource/zfs_dataset.rs:30-37 | the last row for a field decides it |
| ZfsDatasetSource.FilesDatasets | src/datasource/zfs_dataset.rs:73-85 | each dataset belongs to its pool, is named and is not a snapshot; at most one per file |
| ZfsDatasetSource.PoolsDatasets | src/datasource/zfs_dataset.rs:63-86 | every dataset found under the pools is named and is not a snapshot |
| ZfsDatasetSource.DatasetIo | src/datasource/zfs_dataset.rs:60-92 | an error listing the kstat root, a pool directory or reading a file is returned; otherwise the datasets, time-stamped |
| ZfsDatasetSource.PoolFilesDatasets | src/datasource/zfs_dataset.rs:73-85 | the file loop returns exactly FilesDatasets |
| ZfsDatasetSource.PoolsErrorPersists | src/datasource/zfs_dataset.rs:63-68 | an error in one pool aborts the whole walk with that error |
| ZfsDatasetSource.FilesErrorPersists | src/datasource/zfs_dataset.rs:73-81 | a file that cannot be read aborts the walk with that error |
| DockerSource.ToCpuStats | src/datasource/docker.rs:143-157 | counters exist exactly when both the total and the system usage are reported |
| DockerSource.Usage | src/datasource/docker.rs:127-134 | the estimate is non-negative and is the CPU delta over the system delta, times the CPU count |
| DockerSource.UsageBounded | src/datasource/docker.rs:127-138 | when the container's delta does not exceed the system's, the estimate is at most the CPU count |
| DockerSource.CpuUsage | src/datasource/docker.rs:105-141 | the new baseline is the current counters whenever both are present; an estimate needs a previous measurement under the same name with both counters strictly increased, lies between 0 and the CPU count, and is proportional to the deltas |
| DockerSource.EstimateWhenPlausible | src/datasource/docker.rs:122-140 | with a previous measurement, advanced counters and a delta within the system's, an estimate is produced |
| DockerSource.ContainerName | src/datasource/docker.rs:95-103 | the name is the raw name with its leading '/' characters removed, and nothing else changed |
| DockerSource.FirstNameUsed | src/datasource/docker.rs:95-103 | the first of several names is used, without its slash |
| DockerSource.IdWhenNoNames | src/datasource/docker.rs:95-103 | an empty names list falls back to the id |
| DockerSource.NoNameNorId | src/datasource/docker.rs:95-103 | a container with neither names nor id is called "n/a" |
| DockerSource.Report | src/datasource/docker.rs:47-83 | a container is reported exactly when it has an id and its stats call succeeded |
| DockerSource.Reports | src/datasource/docker.rs:47-85 | at most one report per container |
| DockerSource.BaselineKeys | src/datasource/docker.rs:44-87 | the next baseline holds exactly the names measured in this round; containers gone from the listing are dropped |
| DockerSource.BaselineHoldsLatest | src/datasource/docker.rs:62-67 | when two containers share a name, the later measurement is the one kept |
| DockerSource.ReportsCount | src/datasource/docker.rs:47-84 | the number of reports is the number of containers with an id and stats |
| DockerSource.DockerClient.constructor | src/datasource/docker.rs:22-26 | the baseline starts empty |
| DockerSource.DockerClient.DockerStatsRound | src/datasource/docker.rs:30-92 | a listing error is returned and the baseline is kept; otherwise the reports are estimated against the old baseline, which is then replaced by this round's measurements |
| DiskSmartSource.ParseNvme | src/datasource/disk_smart.rs:82-98 | keeps the device; spare and wear are present exactly when the health log has them, as fractions of its percentages; the temperature and the seven counters pass through unchanged |
| DiskSmartSource.CurrentByte | src/datasource/disk_smart.rs:110-111 | the current temperature is a single byte |
| DiskSmartSource.MinByte | src/datasource/disk_smart.rs:113-116 | the minimum temperature is a single byte |
| DiskSmartSource.MaxByte | src/datasource/disk_smart.rs:113-117 | the maximum temperature is a single byte |
| DiskSmartSource.ApplyAttribute | src/datasource/disk_smart.rs:104-138 | an attribute with an unknown or missing id changes nothing; a count id sets its own field (0 when raw is missing) and no other; a wear id sets the wear level; a temperature id sets the current temperature from byte 0 of the raw value, and the lowest and highest from bytes 2 and 4 only when the raw value exceeds 0xFFFF; no other id touches the temperatures |
| DiskSmartSource.ApplyAll | src/datasource/disk_smart.rs:103-141 | the device identity survives decoding |
| DiskSmartSource.ParseSata | src/datasource/disk_smart.rs:100-144 | the attribute loop decodes exactly SataOfJson |
| DiskSmartSource.CountLastWins | src/datasource/disk_smart.rs:121-128 | each count field takes the raw value of the last attribute with its id |
| DiskSmartSource.TemperatureLastWins | src/datasource/disk_smart.rs:109-119 | the current temperature comes from the last 194/190 row; the lowest and highest come from the last such row whose raw value exceeds 0xFFFF, and are otherwise left as they were |
| DiskSmartSource.WearLastWins | src/datasource/disk_smart.rs:134-136 | the wear level is the raw value of the last wear attribute |
| DiskSmartSource.TemperaturesAreBytes | src/datasource/disk_smart.rs:109-119 | every decoded temperature lies in 0..255 |
| DiskSmartSource.PackBytes | src/datasource/disk_smart.rs:110-117 | current, minimum and maximum are bytes 0, 2 and 4 of the raw value |
| DiskSmartSource.TemperatureRoundTrip | src/datasource/disk_smart.rs:109-119 | a packed raw value decodes to its current temperature; minimum and maximum are taken only when the raw value exceeds 0xFFFF |
| DiskSmartSource.QueryDevice | src/datasource/disk_smart.rs:43-80 | exit status 2 is a device in standby, which is skipped; another failing status is an error; success needs decodable JSON, and the report carries the path, the model and the serial ("Unknown" when missing), is NVMe exactly when the device type is "nvme", and holds the NVMe health log decoded by ParseNvme or the attribute table decoded by SataOfJson |
| DiskSmartSource.Outcomes | src/datasource/disk_smart.rs:153-156 | one query per scanned path |
| DiskSmartSource.DiskTemps | src/datasource/disk_smart.rs:149-180 | a scan error is returned; otherwise the SATA and NVMe lists are the reports of that kind, with standby and failed devices skipped |
| DiskSmartSource.PartitionCount | src/datasource/disk_smart.rs:161-171 | every reported device goes into exactly one of the two lists |
| DiskSmartSource.ReportsPartition | src/datasource/disk_smart.rs:153-172 | the list sizes do not depend on the order in which queries complete |
| DiskSmartSource.OutcomesCount | src/datasource/disk_smart.rs:161-171 | the SATA and NVMe counts are the numbers of paths whose query yields that kind |
| DiskSmartSource.NvmeDecodedFamilies | src/metrics/disk_smart.rs:335-349 | a decoded NVMe device exports one family per reading its health log holds |
| DiskSmartMetrics.NewSata | src/metrics/disk_smart.rs:47-65 | a fresh SATA record keeps its device and has no readings |
| DiskSmartMetrics.NewNvme | src/metrics/disk_smart.rs:82-98 | a fresh NVMe record keeps its device and has no readings |
| DiskSmartMetrics.MakeLabels | src/metrics/disk_smart.rs:290-296 | the labels are device, model and serial_number, in that order |
| DiskSmartMetrics.CollectFamilies | src/metrics/disk_smart.rs:327-370 | an empty store exports nothing; otherwise all NVMe families, then all SATA families |
| DiskSmartMetrics.NvmeFamiliesSparse | src/metrics/disk_smart.rs:335-349 | one family per present NVMe reading and at most ten: gauges first, then counters, all with the device labels |
| DiskSmartMetrics.SataFamiliesSparse | src/metrics/disk_smart.rs:351-367 | one family per present SATA reading and at most twelve: gauges first, then counters, all with the device labels |
| DiskSmartMetrics.EmptyRecordsExposeNothing | src/metrics/disk_smart.rs:335-367 | a device with no readings exports no family |
| DiskSmartMetrics.SectorCountsAreGauges | src/metrics/disk_smart.rs:357-358 | pending and reallocated sectors are exported as gauges, despite their `_total` names |
| DiskSmartMetrics.NvmeBeforeSata | src/metrics/disk_smart.rs:335-351 | the NVMe families come first |
| DiskSmartMetrics.SmartFamiliesBound | src/metrics/disk_smart.rs:327-370 | at most ten families per NVMe device and twelve per SATA device |
| DiskSmartMetrics.Register | src/metrics/disk_smart.rs:387-399 | a disabled configuration registers a no-op collector; an enabled one registers exactly the 22 descriptors of `desc()`, in order (DESCS) |
| DiskSmartMetrics.SmartCollector.constructor | src/metrics/disk_smart.rs:411-416 | the store starts empty |
| DiskSmartMetrics.SmartCollector.Collect | src/metrics/disk_smart.rs:428-432 | a data-source error is returned and the store is kept; a fresh report replaces the store unconditionally |
| DiskSmartMetrics.OverwriteIgnoresTimestamps | src/metrics/disk_smart.rs:428-432 | the newer-only rule would keep a newer stored SMART report against an older incoming one, which `Collect` overwrites unconditionally |
| NutSource.Scan | src/datasource/nut.rs:54-67 | a listing consumes replies forward and never past the end |
| NutSource.After | src/datasource/nut.rs:54-58 | reading resumes right after the terminator line, or at the end of the stream |
| NutSource.ScanLines | src/datasource/nut.rs:54-67 | a listing folds every line before its terminator (or before the end of the stream) in order, then stops |
| NutSource.ScanReadError | src/datasource/nut.rs:54 | a read failure before the terminator ends the listing with that error |
| NutSource.ListUps | src/datasource/nut.rs:41-71 | a successful `LIST UPS` consumes replies forward and never past the end |
| NutSource.ListUpsDevices | src/datasource/nut.rs:41-71 | the reply loop returns exactly ListUps |
| NutSource.ListVar | src/datasource/nut.rs:73-107 | a successful `LIST VAR` consumes replies forward and never past the end |
| NutSource.ListDeviceParameters | src/datasource/nut.rs:73-107 | the reply loop returns exactly ListVar |
| NutSource.FoldNames | src/datasource/nut.rs:60-64 | the names are the second tokens of the "UPS" lines, in order |
| NutSource.ListUpsNames | src/datasource/nut.rs:54-70 | the device list is the names from the "UPS" lines before "END LIST UPS", and reading resumes after it |
| NutSource.ListUpsReadError | src/datasource/nut.rs:54 | a read failure during `LIST UPS` is the result |
| NutSource.ListVarParams | src/datasource/nut.rs:88-106 | the parameters are those of the "VAR" lines before "END LIST VAR", and reading resumes after it |
| NutSource.ListVarReadError | src/datasource/nut.rs:88 | a read failure during `LIST VAR` is the result |
| NutSource.ParamsLastWins | src/datasource/nut.rs:94-99 | the last "VAR" line for a variable sets its value |
| NutSource.ParamsAbsent | src/datasource/nut.rs:94-100 | a variable no line names is absent |
| NutSource.FindFirstNumeric | src/datasource/nut.rs:115-118 | the first alias that is present and numeric gives the value |
| NutSource.FindNone | src/datasource/nut.rs:115-118 | no numeric alias gives no value |
| NutSource.AsFraction | src/datasource/nut.rs:114 | a percentage becomes a fraction, present exactly when the percentage is |
| NutSource.Derived | src/datasource/nut.rs:132-143 | power derived from a positive nominal and a load in [0, 1] lies between 0 and the nominal |
| NutSource.CollectDeviceParameters | src/datasource/nut.rs:109-157 | the record carries the device's name; runtime, input and output voltage, nominal apparent and nominal real power are each the first numeric alias of their own list (battery.runtime, battery.runtime.low; input.voltage; output.voltage; ups.power.nominal, output.power.nominal; ups.realpower.nominal, output.realpower.nominal); the other four readings are stated by PercentagesAreFractions and PowerFallback |
| NutSource.PercentagesAreFractions | src/datasource/nut.rs:122-125 | battery level and load are present exactly when a numeric alias is, as fractions of the percentages |
| NutSource.PowerFallback | src/datasource/nut.rs:132-143 | a measured real or apparent power is used as is; otherwise it is nominal × load when the nominal is positive and the load is known; otherwise it is absent |
| NutSource.DerivedPowerSign | src/datasource/nut.rs:132-137 | a derived real power is non-negative when the load is |
| NutSource.ReadUpsStats | src/datasource/nut.rs:161-185 | the session loop returns exactly UpsStatsOf |
| NutSource.DevicesFollowNames | src/datasource/nut.rs:172-179 | one record per listed UPS, in order, named after it |
| NutSource.UpsStatsFollowList | src/datasource/nut.rs:161-185 | a successful session has one record per UPS of `LIST UPS`, in order, time-stamped |
| NutSource.DevicesAbortOnError | src/datasource/nut.rs:173-175 | the first failing `LIST VAR` makes the whole session fail with its error |
| NutSource.PositionAfter | src/datasource/nut.rs:172-179 | the replies consumed by the devices so far never run past the end |
| UpsMetrics.DescsOmitNominalPower | src/metrics/ups.rs:173-183 | seven descriptors, all labelled by `ups`; the two nominal-power descriptors are not among them |
| UpsMetrics.Register | src/metrics/ups.rs:234-246 | a disabled configuration gives the no-op collector; an enabled one registers exactly the seven listed descriptors (DESCS), in order, without the nominal powers |
| UpsMetrics.BuildMetricFamily | src/metrics/ups.rs:143-169 | the device loop builds exactly FamilyOf |
| UpsMetrics.FamilySamples | src/metrics/ups.rs:143-169 | a gauge family with one sample per device that has the reading, each a sample of such a device |
| UpsMetrics.FamilyOrder | src/metrics/ups.rs:153-166 | samples follow the device order |
| UpsMetrics.UpsFamilies | src/metrics/ups.rs:185-210 | always nine gauge families, even when no device has a reading |
| UpsMetrics.CollectFamilies | src/metrics/ups.rs:185-210 | an empty store exports nothing; otherwise the nine UPS families |
| UpsMetrics.UpsFamilyNames | src/metrics/ups.rs:185-210 | the nine families in export order, two of them (nominal powers) without a described descriptor |
| UpsMetrics.UpsCollector.constructor | src/metrics/ups.rs:258-263 | the store starts empty |
| UpsMetrics.UpsCollector.Collect | src/metrics/ups.rs:276-281 | a data-source error is returned and the store is kept; fresh stats are stored if newer |
| Text.SplitOnce | src/datasource/memory_usage.rs:19-22 | no split exactly when the separator is absent; otherwise the text is head + separator + tail, and the head has no separator |
| Text.RSplitOnce | src/datasource/memory_usage.rs:24-27 | no split exactly when the separator is absent; otherwise the text is head + separator + tail, and the tail has no separator |
| Text.ParseU64 | src/datasource/cpu_usage.rs:126 | a parsed value fits in 64 bits and comes from a non-empty run of digits, optionally after one '+' (a lone "+" is rejected) |
| Text.ParseU64OfNatToString | src/datasource/cpu_frequency.rs:34 | the decimal writing of a u64 parses back to it |
| Text.SplitUnwords | src/datasource/disk_io.rs:32 | splitting whitespace-joined tokens on whitespace gives back the tokens |
| Seqs.CountPermutation | src/datasource/disk_smart.rs:153-162 | a count does not depend on the order of the sequence, so concurrent completion order does not matter |

## Left out

- Integer width: counters are unbounded `nat`. The u64 products (×1024 and ×1048576 in
  meminfo, ×512 sectors, ×1000 kHz) and the Docker rx/tx sums are not wrapped. Rust panics on
  overflow in debug builds and wraps in release builds; neither is modelled. The parsers do
  keep every parsed value below 2^64.
- Floating point: `f64` is `real`. Ratios are exact, with no rounding, NaN or infinities.
  `parse::<f64>` is a decimal reading (sign, digits, optional fraction); exponents, `inf` and
  `NaN` are not accepted.
- MetricsUtil.AsValue: the u64-to-f64 conversion is exact here, while the source rounds values
  above 2^53.
- I/O is a parameter:
  - files are read through `IoResult` values or the `HardcodedReader`;
  - the ZFS directory walk is given as a list of pools and files with their read outcomes;
  - the `smartctl --scan` output is given as the list of paths (scan_devices, disk_smart.rs:23-41);
  - each `smartctl` run is given as a function from path to outcome, with the JSON already decoded;
  - the Docker API is given as the listing of containers with their stats outcomes;
  - the NUT TCP stream is given as the sequence of lines read, or a read failure.
- NUT writes and connection: the failures of `write_all` (nut.rs:46-49, 80-83), the connection
  error (nut.rs:162-164) and address parsing in `Nut::new` (nut.rs:31-39) are not modelled.
- Clocks: `Instant::now()` and the `sleep` of the CPU sampler are the caller's clock reading, in
  milliseconds.
- Concurrency:
  - `FuturesUnordered` in `disk_temps` is taken in path order. That the list sizes do not
    depend on completion order is proved (DiskSmartSource.ReportsPartition), but the order of
    the lists is not.
  - The tokio mutexes, and the recovery from poisoned locks (cpu_usage.rs:50-54, 98-102;
    `unwrap_or_else(into_inner)` in the collectors), are not modelled; every method runs
    atomically.
- NetworkIoMetrics.NetworkIoCollector.Collect: when the data source fails, the source calls
  `update_measurement_if` with `None`. That function is not part of this model, since
  src/metrics/util.rs does not define it. The model leaves the store as it is and its contract
  says nothing about the store on that path.
- MetricsUtil.UpdateIfNewer: the semantics are taken from the inline update in
  src/metrics/disk_io.rs:213-221 and from the `old.timestamp < new.timestamp` closures the
  collectors pass. `update_measurement_if` itself is not part of this model.
- Docker: a container's network map is a sequence, so the sum follows that sequence and not
  `HashMap` order (sums do not depend on order). Memory usage is taken as reported.
- ZFS: a failure of `next_entry` part-way through a directory is folded into the read outcome of
  the entry list.
- The Prometheus text encoding (`encode_response`, handler.rs:35-40), registration with the
  `Registry` beyond the SMART and UPS collectors, and logging and tracing are not modelled.
- DiskSmartSource.ApplyAll: its contract states only that the device is kept. What the fields
  become is stated by CountLastWins, WearLastWins and TemperatureLastWins.
- The `CpuFrequency`, `MemoryUsage`, `DiskIo`, `NetworkIo`, `ArcStat` and `Dataset` source
  structs only wrap a reader, so they are not classes here; their operations are methods over
  the read outcome.

## Findings

| source | as written | input that shows it | evidently intended | confidence | as-written member | corrected member |
|---|---|---|---|---|---|---|
| src/datasource/cpu_usage.rs:72-80 | after checking only that the two readings have the same number of rows, `cpu_usage` indexes `current[0]` | two `/proc/stat` readings with no line starting with "cpu" (both parse to zero rows) | an error ("no CPU rows") instead of an index-out-of-bounds panic | not executed | CpuUsageSource.EmptyReadingsPanic | CpuUsageSource.MeasureAgreesWhereSourceReturns |
