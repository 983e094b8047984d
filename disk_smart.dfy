/** The smartctl data source of src/datasource/disk_smart.rs: classifying the exit status of
    `smartctl -a --json`, choosing the NVMe or SATA decoder, decoding the NVMe health log and
    the ATA attribute table, and sorting the per-device outcomes into the two report lists.
    The subprocess and its JSON decoding are inputs: `SmartJson` holds what the `as_str`,
    `as_f64` and `as_u64` accessors return (None when a key is missing or of another type). */
module DiskSmartSource {
  import opened Wrappers
  import opened Text
  import opened Seqs
  import opened MetricsUtil
  import opened DiskSmartMetrics

  /** The part of `std::process::ExitStatus` the source inspects. */
  datatype ExitStatus = ExitStatus(success: bool, code: Option<int>)

  /** `nvme_smart_health_information_log`. */
  datatype NvmeHealth = NvmeHealth(
    temperature: Option<real>, availableSpare: Option<real>, percentageUsed: Option<real>,
    dataUnitsRead: Option<nat>, dataUnitsWritten: Option<nat>, hostReads: Option<nat>,
    hostWrites: Option<nat>, powerOnHours: Option<nat>, unsafeShutdowns: Option<nat>,
    mediaErrors: Option<nat>)

  /** One row of `ata_smart_attributes.table`: its `id` and `raw.value` as u64, if they are. */
  datatype Attribute = Attribute(id: Option<nat>, raw: Option<nat>)

  datatype SmartJson = SmartJson(
    modelName: Option<String>, serialNumber: Option<String>, deviceType: Option<String>,
    health: NvmeHealth, table: Option<seq<Attribute>>)

  /** What running smartctl yields: its exit status and its stdout decoded as JSON (or not). */
  datatype CommandOutput = CommandOutput(status: ExitStatus, stdout: Result<SmartJson>)

  datatype DeviceReport = Sata(sata: SataDevice) | Nvme(nvme: NvmeDevice)

  /** The exit code smartctl uses when `--nocheck standby` made it skip a sleeping disk. */
  const STANDBY_EXIT_CODE := 2
  const UNKNOWN: String := "Unknown"

  /** The attribute ids that fill a count field. */
  const COUNT_IDS: set<nat> := {4, 5, 9, 12, 193, 197, 198, 199}
  /** Temperature_Celsius and Airflow_Temperature. */
  const TEMPERATURE_IDS: set<nat> := {194, 190}
  /** SSD life left, media wearout indicator, percentage lifetime used. */
  const WEAR_IDS: set<nat> := {231, 233, 202}

  function ReportDevice(r: DeviceReport): Device {
    match r
    case Sata(s) => s.device
    case Nvme(n) => n.device
  }

  /** `parse_nvme`: the spare and used percentages become ratios; everything else is copied. */
  function ParseNvme(info: Device, h: NvmeHealth): (n: NvmeDevice)
    ensures n.device == info
    ensures n.availableSpare.Some? <==> h.availableSpare.Some?
    ensures n.availableSpare.Some? ==> n.availableSpare.value * 100.0 == h.availableSpare.value
    ensures n.percentUsed.Some? <==> h.percentageUsed.Some?
    ensures n.percentUsed.Some? ==> n.percentUsed.value * 100.0 == h.percentageUsed.value
    ensures n.temperature == h.temperature && n.mediaErrors == h.mediaErrors
    ensures n.dataUnitsRead == h.dataUnitsRead && n.dataUnitsWritten == h.dataUnitsWritten
    ensures n.hostReads == h.hostReads && n.hostWrites == h.hostWrites
    ensures n.powerOnHours == h.powerOnHours && n.unsafeShutdowns == h.unsafeShutdowns
  {
    NvmeDevice(info, h.temperature,
      if h.availableSpare.Some? then Some(h.availableSpare.value / 100.0) else None,
      if h.percentageUsed.Some? then Some(h.percentageUsed.value / 100.0) else None,
      h.dataUnitsRead, h.dataUnitsWritten, h.hostReads, h.hostWrites, h.powerOnHours,
      h.unsafeShutdowns, h.mediaErrors)
  }

  /** How many of the ten health-log keys are present. */
  function HealthReadings(h: NvmeHealth): nat {
    Present([h.temperature, h.availableSpare, h.percentageUsed]) +
    Present([AsValue(h.dataUnitsRead), AsValue(h.dataUnitsWritten), AsValue(h.hostReads), AsValue(h.hostWrites),
             AsValue(h.powerOnHours), AsValue(h.unsafeShutdowns), AsValue(h.mediaErrors)])
  }

  /** The count field an attribute id fills (None for ids that fill none). */
  function CountField(s: SataDevice, id: nat): Option<nat> {
    if id == 4 then s.startStopCount
    else if id == 5 then s.reallocatedSectors
    else if id == 9 then s.powerOnHours
    else if id == 12 then s.powerCycleCount
    else if id == 193 then s.loadCycleCount
    else if id == 197 then s.pendingSectors
    else if id == 198 then s.uncorrectableErrors
    else if id == 199 then s.crcErrors
    else None
  }

  /** The current temperature: bits 0-7 of the raw value. */
  function CurrentByte(raw: nat): (b: nat)
    ensures b < 256
  {
    raw % 0x100
  }

  /** Bits 16-23, where some vendors keep the lowest temperature seen. */
  function MinByte(raw: nat): (b: nat)
    ensures b < 256
  {
    (raw / 0x1_0000) % 0x100
  }

  /** Bits 32-39, where some vendors keep the highest temperature seen. */
  function MaxByte(raw: nat): (b: nat)
    ensures b < 256
  {
    (raw / 0x1_0000_0000) % 0x100
  }

  /** The body of the attribute loop of `parse_sata` for one row: a row without a numeric id is
      skipped, a missing raw value reads as 0, and the id decides the one field it sets. */
  function ApplyAttribute(d: SataDevice, a: Attribute): (r: SataDevice)
    ensures r.device == d.device
    ensures a.id.None? || a.id.value !in COUNT_IDS + TEMPERATURE_IDS + WEAR_IDS ==> r == d
    ensures a.id.Some? && a.id.value in COUNT_IDS ==> CountField(r, a.id.value) == Some(a.raw.GetOr(0))
    ensures forall id :: id in COUNT_IDS && Some(id) != a.id ==> CountField(r, id) == CountField(d, id)
    ensures a.id.Some? && a.id.value in WEAR_IDS ==> r.wearLevel == Some(a.raw.GetOr(0) as real)
    ensures !(a.id.Some? && a.id.value in WEAR_IDS) ==> r.wearLevel == d.wearLevel
    ensures !(a.id.Some? && a.id.value in TEMPERATURE_IDS) ==>
      r.temperature == d.temperature && r.temperatureMin == d.temperatureMin && r.temperatureMax == d.temperatureMax
    ensures a.id.Some? && a.id.value in TEMPERATURE_IDS ==>
      var raw := a.raw.GetOr(0);
      r.temperature == Some(CurrentByte(raw) as real) &&
      (raw > 0xFFFF ==> r.temperatureMin == Some(MinByte(raw) as real) && r.temperatureMax == Some(MaxByte(raw) as real)) &&
      (raw <= 0xFFFF ==> r.temperatureMin == d.temperatureMin && r.temperatureMax == d.temperatureMax)
  {
    if a.id.None? then d
    else
      var id, raw := a.id.value, a.raw.GetOr(0);
      if id == 194 || id == 190 then
        var t := d.(temperature := Some(CurrentByte(raw) as real));
        if raw > 0xFFFF then t.(temperatureMin := Some(MinByte(raw) as real), temperatureMax := Some(MaxByte(raw) as real))
        else t
      else if id == 4 then d.(startStopCount := Some(raw))
      else if id == 5 then d.(reallocatedSectors := Some(raw))
      else if id == 9 then d.(powerOnHours := Some(raw))
      else if id == 12 then d.(powerCycleCount := Some(raw))
      else if id == 193 then d.(loadCycleCount := Some(raw))
      else if id == 197 then d.(pendingSectors := Some(raw))
      else if id == 198 then d.(uncorrectableErrors := Some(raw))
      else if id == 199 then d.(crcErrors := Some(raw))
      else if id == 231 || id == 233 || id == 202 then d.(wearLevel := Some(raw as real))
      else d
  }

  /** The attribute rows applied in table order. */
  function ApplyAll(d: SataDevice, attrs: seq<Attribute>): (r: SataDevice)
    ensures r.device == d.device
  {
    if attrs == [] then d else ApplyAttribute(ApplyAll(d, attrs[..|attrs| - 1]), attrs[|attrs| - 1])
  }

  /** What `parse_sata` returns: a fresh record, then every row of the table if there is one. */
  function SataOfJson(info: Device, table: Option<seq<Attribute>>): SataDevice {
    if table.None? then NewSata(info) else ApplyAll(NewSata(info), table.value)
  }

  /** `parse_sata`. */
  method ParseSata(info: Device, json: SmartJson) returns (device: SataDevice)
    ensures device == SataOfJson(info, json.table)
  {
    device := NewSata(info);
    if json.table.Some? {
      var table := json.table.value;
      for i := 0 to |table|
        invariant device == ApplyAll(NewSata(info), table[..i])
      {
        assert table[..i + 1][..i] == table[..i];
        device := ApplyAttribute(device, table[i]);
      }
      assert table[..|table|] == table;
    }
  }

  /** The raw value of the last row with the given id (0 when that row has no raw value). */
  function LastRaw(attrs: seq<Attribute>, id: nat): Option<nat> {
    if attrs == [] then None
    else if attrs[|attrs| - 1].id == Some(id) then Some(attrs[|attrs| - 1].raw.GetOr(0))
    else LastRaw(attrs[..|attrs| - 1], id)
  }

  /** The raw value of the last row whose id is in `ids`. */
  function LastRawIn(attrs: seq<Attribute>, ids: set<nat>): Option<nat> {
    if attrs == [] then None
    else if attrs[|attrs| - 1].id.Some? && attrs[|attrs| - 1].id.value in ids then Some(attrs[|attrs| - 1].raw.GetOr(0))
    else LastRawIn(attrs[..|attrs| - 1], ids)
  }

  /** A later row for the same count field overwrites an earlier one: each count field holds
      the raw value of the last row with its id, or what it held before if there is none. */
  lemma {:induction false} CountLastWins(d: SataDevice, attrs: seq<Attribute>, id: nat)
    requires id in COUNT_IDS
    ensures CountField(ApplyAll(d, attrs), id) == if LastRaw(attrs, id).Some? then LastRaw(attrs, id) else CountField(d, id)
    decreases |attrs|
  {
    if attrs != [] {
      CountLastWins(d, attrs[..|attrs| - 1], id);
    }
  }

  /** The wear level is the unscaled raw value of the last row among ids 231, 233 and 202. */
  lemma {:induction false} WearLastWins(d: SataDevice, attrs: seq<Attribute>)
    ensures ApplyAll(d, attrs).wearLevel ==
      if LastRawIn(attrs, WEAR_IDS).Some? then Some(LastRawIn(attrs, WEAR_IDS).value as real) else d.wearLevel
    decreases |attrs|
  {
    if attrs != [] {
      WearLastWins(d, attrs[..|attrs| - 1]);
    }
  }

  /** The raw value of the last temperature row whose raw value spans more than two bytes. */
  function LastWideTemperatureRaw(attrs: seq<Attribute>): Option<nat> {
    if attrs == [] then None
    else
      var a := attrs[|attrs| - 1];
      if a.id.Some? && a.id.value in TEMPERATURE_IDS && a.raw.GetOr(0) > 0xFFFF then Some(a.raw.GetOr(0))
      else LastWideTemperatureRaw(attrs[..|attrs| - 1])
  }

  /** The current temperature comes from the last row among ids 194 and 190; the lowest and
      highest come from the last such row whose raw value is above 0xFFFF, and are left as they
      were when there is none. */
  lemma {:induction false} TemperatureLastWins(d: SataDevice, attrs: seq<Attribute>)
    ensures var r, last, wide := ApplyAll(d, attrs), LastRawIn(attrs, TEMPERATURE_IDS), LastWideTemperatureRaw(attrs);
      r.temperature == (if last.Some? then Some(CurrentByte(last.value) as real) else d.temperature) &&
      r.temperatureMin == (if wide.Some? then Some(MinByte(wide.value) as real) else d.temperatureMin) &&
      r.temperatureMax == (if wide.Some? then Some(MaxByte(wide.value) as real) else d.temperatureMax)
    decreases |attrs|
  {
    if attrs != [] {
      TemperatureLastWins(d, attrs[..|attrs| - 1]);
    }
  }

  /** All three temperatures are whole numbers of degrees between 0 and 255. */
  predicate ByteTemperatures(s: SataDevice) {
    ByteValued(s.temperature) && ByteValued(s.temperatureMin) && ByteValued(s.temperatureMax)
  }

  predicate ByteValued(t: Option<real>) {
    t.Some? ==> 0.0 <= t.value < 256.0 && t.value.Floor as real == t.value
  }

  /** Decoding keeps the temperatures in byte range, starting from a fresh record. */
  lemma {:induction false} TemperaturesAreBytes(info: Device, attrs: seq<Attribute>)
    ensures ByteTemperatures(ApplyAll(NewSata(info), attrs))
    decreases |attrs|
  {
    if attrs != [] {
      TemperaturesAreBytes(info, attrs[..|attrs| - 1]);
      ApplyKeepsBytes(ApplyAll(NewSata(info), attrs[..|attrs| - 1]), attrs[|attrs| - 1]);
    }
  }

  /** One row keeps the temperatures in byte range. */
  lemma ApplyKeepsBytes(d: SataDevice, a: Attribute)
    requires ByteTemperatures(d)
    ensures ByteTemperatures(ApplyAttribute(d, a))
  {
    if a.id.Some? && a.id.value in TEMPERATURE_IDS {
      var raw := a.raw.GetOr(0);
      assert (CurrentByte(raw) as real).Floor == CurrentByte(raw);
      assert (MinByte(raw) as real).Floor == MinByte(raw);
      assert (MaxByte(raw) as real).Floor == MaxByte(raw);
    }
  }

  /** How vendors pack the three temperatures into the 48-bit raw value. */
  function Pack(current: nat, min: nat, max: nat): nat {
    current + min * 0x1_0000 + max * 0x1_0000_0000
  }

  lemma PackBytes(current: nat, min: nat, max: nat)
    requires current < 256 && min < 256 && max < 256
    ensures CurrentByte(Pack(current, min, max)) == current
    ensures MinByte(Pack(current, min, max)) == min
    ensures MaxByte(Pack(current, min, max)) == max
  {
    var raw := Pack(current, min, max);
    assert raw / 0x1_0000 == min + max * 0x1_0000;
    assert raw / 0x1_0000_0000 == max;
  }

  /** Decoding a temperature row recovers the packed bytes: the current temperature always,
      and the lowest and highest ones exactly when the raw value exceeds 0xFFFF. */
  lemma TemperatureRoundTrip(d: SataDevice, id: nat, current: nat, min: nat, max: nat)
    requires id in TEMPERATURE_IDS
    requires current < 256 && min < 256 && max < 256
    ensures var r := ApplyAttribute(d, Attribute(Some(id), Some(Pack(current, min, max))));
      r.temperature == Some(current as real) &&
      (min > 0 || max > 0 ==> r.temperatureMin == Some(min as real) && r.temperatureMax == Some(max as real)) &&
      (min == 0 && max == 0 ==> r.temperatureMin == d.temperatureMin && r.temperatureMax == d.temperatureMax)
  {
    PackBytes(current, min, max);
    assert Pack(current, min, max) > 0xFFFF <==> min > 0 || max > 0;
  }

  /** `query_device`, given the outcome of running smartctl on `path`. */
  function QueryDevice(path: String, output: Result<CommandOutput>): (r: Result<Option<DeviceReport>>)
    ensures r == Ok(None) <==>
      output.Ok? && !output.value.status.success && output.value.status.code == Some(STANDBY_EXIT_CODE)
    ensures output.Ok? && !output.value.status.success && output.value.status.code != Some(STANDBY_EXIT_CODE) ==> r.Err?
    ensures output.Ok? && output.value.status.success ==> (r.Ok? <==> output.value.stdout.Ok?)
    ensures r.Ok? && r.value.Some? ==>
      output.Ok? && output.value.status.success && output.value.stdout.Ok? &&
      (var json, rep := output.value.stdout.value, r.value.value;
       var info := Device(path, json.modelName.GetOr(UNKNOWN), json.serialNumber.GetOr(UNKNOWN));
       ReportDevice(rep) == info &&
       (rep.Nvme? <==> json.deviceType == Some("nvme")) &&
       (rep.Nvme? ==> rep == Nvme(ParseNvme(info, json.health))) &&
       (rep.Sata? ==> rep == Sata(SataOfJson(info, json.table))))
  {
    if output.Err? then Err(output.error)
    else
      var status := output.value.status;
      if !status.success && status.code == Some(STANDBY_EXIT_CODE) then Ok(None)
      else if !status.success then Err("smartctl failed with status")
      else if output.value.stdout.Err? then Err(output.value.stdout.error)
      else
        var json := output.value.stdout.value;
        var info := Device(path, json.modelName.GetOr(UNKNOWN), json.serialNumber.GetOr(UNKNOWN));
        if json.deviceType.GetOr("") == "nvme" then Ok(Some(Nvme(ParseNvme(info, json.health))))
        else Ok(Some(Sata(SataOfJson(info, json.table))))
  }

  /** The outcome of querying each scanned path, in the order they complete. */
  function Outcomes(paths: seq<String>, run: String -> Result<CommandOutput>): (r: seq<Result<Option<DeviceReport>>>)
    ensures |r| == |paths|
  {
    if paths == [] then [] else Outcomes(paths[..|paths| - 1], run) + [QueryDevice(paths[|paths| - 1], run(paths[|paths| - 1]))]
  }

  function SataOf(o: Result<Option<DeviceReport>>): Option<SataDevice> {
    if o.Ok? && o.value.Some? && o.value.value.Sata? then Some(o.value.value.sata) else None
  }

  function NvmeOf(o: Result<Option<DeviceReport>>): Option<NvmeDevice> {
    if o.Ok? && o.value.Some? && o.value.value.Nvme? then Some(o.value.value.nvme) else None
  }

  predicate Reported(o: Result<Option<DeviceReport>>) {
    o.Ok? && o.value.Some?
  }

  predicate IsSata(o: Result<Option<DeviceReport>>) {
    SataOf(o).Some?
  }

  predicate IsNvme(o: Result<Option<DeviceReport>>) {
    NvmeOf(o).Some?
  }

  /** `disk_temps`: a failed scan is the error; otherwise each query that completes is sorted
      into the SATA or the NVMe list, and skipped or failed devices are left out. `paths` is
      taken in completion order and `now` is the instant the report is stamped with. */
  method DiskTemps(scan: Result<seq<String>>, run: String -> Result<CommandOutput>, now: int) returns (r: Result<SmartReports>)
    ensures scan.Err? ==> r == Err(scan.error)
    ensures scan.Ok? ==> r.Ok? && r.value.timestamp == now
    ensures scan.Ok? ==> r.value.sata == FilterMap(Outcomes(scan.value, run), SataOf)
    ensures scan.Ok? ==> r.value.nvme == FilterMap(Outcomes(scan.value, run), NvmeOf)
  {
    if scan.Err? {
      return Err(scan.error);
    }
    var paths := scan.value;
    var sata: seq<SataDevice> := [];
    var nvme: seq<NvmeDevice> := [];
    for i := 0 to |paths|
      invariant sata == FilterMap(Outcomes(paths[..i], run), SataOf)
      invariant nvme == FilterMap(Outcomes(paths[..i], run), NvmeOf)
    {
      var result := QueryDevice(paths[i], run(paths[i]));
      OutcomesStep(paths, i, run);
      if result.Ok? && result.value.Some? {
        match result.value.value
        case Sata(s) => sata := sata + [s];
        case Nvme(n) => nvme := nvme + [n];
      }
    }
    assert paths[..|paths|] == paths;
    return Ok(SmartReports(now, sata, nvme));
  }

  /** One more completed query: its device, if any, joins the end of its list. */
  lemma OutcomesStep(paths: seq<String>, i: nat, run: String -> Result<CommandOutput>)
    requires i < |paths|
    ensures var q := QueryDevice(paths[i], run(paths[i]));
      FilterMap(Outcomes(paths[..i + 1], run), SataOf) ==
        FilterMap(Outcomes(paths[..i], run), SataOf) + (match SataOf(q) case Some(b) => [b] case None => []) &&
      FilterMap(Outcomes(paths[..i + 1], run), NvmeOf) ==
        FilterMap(Outcomes(paths[..i], run), NvmeOf) + (match NvmeOf(q) case Some(b) => [b] case None => [])
  {
    var q := QueryDevice(paths[i], run(paths[i]));
    assert paths[..i + 1][..i] == paths[..i];
    assert Outcomes(paths[..i + 1], run) == Outcomes(paths[..i], run) + [q];
    FilterMapPush(Outcomes(paths[..i], run), q, SataOf);
    FilterMapPush(Outcomes(paths[..i], run), q, NvmeOf);
  }

  lemma {:induction false} PartitionCount(outcomes: seq<Result<Option<DeviceReport>>>)
    ensures Count(outcomes, IsSata) + Count(outcomes, IsNvme) == Count(outcomes, Reported)
    decreases |outcomes|
  {
    if outcomes != [] {
      PartitionCount(outcomes[..|outcomes| - 1]);
    }
  }

  /** Every device that reported lands in exactly one of the two lists, and the sizes of the
      lists do not depend on the order in which the queries complete. */
  lemma ReportsPartition(paths: seq<String>, others: seq<String>, run: String -> Result<CommandOutput>)
    requires multiset(paths) == multiset(others)
    ensures var o := Outcomes(paths, run);
      |FilterMap(o, SataOf)| + |FilterMap(o, NvmeOf)| == Count(o, Reported)
    ensures |FilterMap(Outcomes(paths, run), SataOf)| == |FilterMap(Outcomes(others, run), SataOf)|
    ensures |FilterMap(Outcomes(paths, run), NvmeOf)| == |FilterMap(Outcomes(others, run), NvmeOf)|
  {
    var o, o' := Outcomes(paths, run), Outcomes(others, run);
    FilterMapCount(o, SataOf, IsSata);
    FilterMapCount(o, NvmeOf, IsNvme);
    FilterMapCount(o', SataOf, IsSata);
    FilterMapCount(o', NvmeOf, IsNvme);
    PartitionCount(o);
    OutcomesCount(paths, run);
    OutcomesCount(others, run);
    CountPermutation(paths, others, PathIsSata(run));
    CountPermutation(paths, others, PathIsNvme(run));
  }

  /** Whether querying a path yields a SATA (resp. NVMe) report. */
  function PathIsSata(run: String -> Result<CommandOutput>): String -> bool {
    path => IsSata(QueryDevice(path, run(path)))
  }

  function PathIsNvme(run: String -> Result<CommandOutput>): String -> bool {
    path => IsNvme(QueryDevice(path, run(path)))
  }

  lemma {:induction false} OutcomesCount(paths: seq<String>, run: String -> Result<CommandOutput>)
    ensures Count(Outcomes(paths, run), IsSata) == Count(paths, PathIsSata(run))
    ensures Count(Outcomes(paths, run), IsNvme) == Count(paths, PathIsNvme(run))
    decreases |paths|
  {
    if paths != [] {
      var o := Outcomes(paths, run);
      OutcomesCount(paths[..|paths| - 1], run);
      assert o[..|o| - 1] == Outcomes(paths[..|paths| - 1], run);
    }
  }

  /** A decoded NVMe record exposes one family per health-log key that was present. */
  lemma NvmeDecodedFamilies(families: seq<MetricFamily>, info: Device, h: NvmeHealth)
    ensures |NvmeFamilies(families, ParseNvme(info, h))| == |families| + HealthReadings(h)
  {
    var n := ParseNvme(info, h);
    NvmeFamiliesSparse(families, n);
    PresentSameShape(NvmeGaugeValues(n), [h.temperature, h.availableSpare, h.percentageUsed]);
  }
}
