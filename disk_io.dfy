/** The /proc/diskstats reader of src/datasource/disk_io.rs. Each line is "major minor device"
    followed by the kernel's counters; columns 3 and 7 are completed reads and writes, columns
    5 and 9 sectors read and written. */
module DiskIoSource {
  import opened Wrappers
  import opened Text
  import opened Seqs
  import opened Reader
  import opened DiskIoMetrics

  const PATH_DISK_STATS: String := "/proc/diskstats"
  const KERNEL_SECTOR_SIZE: nat := 512

  /** Loop devices, compressed RAM disks and md1p partitions are not reported. */
  predicate IsVirtual(device: String) {
    StartsWith(device, "loop") || StartsWith(device, "zram") || StartsWith(device, "md1p")
  }

  /** The device of one line's tokens: none without a device column or for a virtual device;
      a missing or unparseable counter reads as 0; sectors are converted to bytes. */
  function DeviceOfRow(t: seq<String>): (r: Option<DeviceIoStats>)
    ensures r.Some? <==> |t| >= 3 && !IsVirtual(t[2])
    ensures r.Some? ==> r.value.deviceName == t[2]
    ensures r.Some? ==> r.value.readOps == ParsedOrZero(t, 3) && r.value.writeOps == ParsedOrZero(t, 7)
    ensures r.Some? ==> r.value.bytesRead == KERNEL_SECTOR_SIZE * ParsedOrZero(t, 5)
    ensures r.Some? ==> r.value.bytesWritten == KERNEL_SECTOR_SIZE * ParsedOrZero(t, 9)
  {
    if |t| < 3 || IsVirtual(t[2]) then None
    else Some(DeviceIoStats(t[2], ParsedOrZero(t, 5) * KERNEL_SECTOR_SIZE, ParsedOrZero(t, 9) * KERNEL_SECTOR_SIZE,
                            ParsedOrZero(t, 3), ParsedOrZero(t, 7)))
  }

  predicate Accepted(t: seq<String>) {
    DeviceOfRow(t).Some?
  }

  /** The disks of a diskstats file, one per accepted line, in line order. */
  function Disks(lines: seq<String>): seq<DeviceIoStats> {
    FilterMap(Rows(lines), DeviceOfRow)
  }

  /** `disk_io`, given what reading /proc/diskstats returned and the clock after the read. */
  method DiskIo(read: IoResult<String>, now: int) returns (r: Result<DiskIoStats>)
    ensures read.IoErr? ==> r == Err(read.message)
    ensures read.IoOk? ==> r == Ok(DiskIoStats(now, Disks(Lines(read.value))))
  {
    if read.IoErr? {
      return Err(read.message);
    }
    var disks := ScanDisks(Lines(read.value));
    r := Ok(DiskIoStats(now, disks));
  }

  method ScanDisks(lines: seq<String>) returns (disks: seq<DeviceIoStats>)
    ensures disks == Disks(lines)
  {
    ghost var rows := Rows(lines);
    disks := [];
    for i := 0 to |lines|
      invariant disks == FilterMap(rows[..i], DeviceOfRow)
    {
      FilterMapSnoc(rows, i, DeviceOfRow);
      var parts := SplitWhitespace(lines[i]);
      assert parts == rows[i];
      if |parts| < 3 {
        continue;
      }
      var device := parts[2];
      if StartsWith(device, "loop") || StartsWith(device, "zram") || StartsWith(device, "md1p") {
        continue;
      }
      var readOps := ParsedOrZero(parts, 3);
      var bytesRead := ParsedOrZero(parts, 5) * KERNEL_SECTOR_SIZE;
      var writeOps := ParsedOrZero(parts, 7);
      var bytesWritten := ParsedOrZero(parts, 9) * KERNEL_SECTOR_SIZE;
      disks := disks + [DeviceIoStats(device, bytesRead, bytesWritten, readOps, writeOps)];
    }
    assert rows[..|lines|] == rows;
  }

  /** Nothing virtual is reported, and there is exactly one disk per accepted line. */
  lemma DisksProperties(lines: seq<String>)
    ensures forall d :: d in Disks(lines) ==> !IsVirtual(d.deviceName)
    ensures |Disks(lines)| == Count(Rows(lines), Accepted)
  {
    FilterMapCount(Rows(lines), DeviceOfRow, Accepted);
    DevicesWellFormed(Rows(lines));
  }

  lemma {:induction false} DevicesWellFormed(rows: seq<seq<String>>)
    ensures forall d :: d in FilterMap(rows, DeviceOfRow) ==> !IsVirtual(d.deviceName)
    decreases |rows|
  {
    if rows != [] {
      DevicesWellFormed(rows[..|rows| - 1]);
    }
  }

  /** Output order is input order: the disks of two stretches of the file are those of each, one
      after the other. */
  lemma DisksAppend(a: seq<String>, b: seq<String>)
    ensures Disks(a + b) == Disks(a) + Disks(b)
  {
    assert Rows(a + b) == Rows(a) + Rows(b);
    FilterMapAppend(Rows(a), Rows(b), DeviceOfRow);
  }

  /** A diskstats line with the four counters the model reads, written out in decimal. */
  function DiskLine(major: String, minor: String, device: String, readOps: nat, merged: String,
                    sectorsRead: nat, readTime: String, writeOps: nat, writesMerged: String,
                    sectorsWritten: nat, rest: seq<String>): String {
    Unwords([major, minor, device, NatToString(readOps), merged, NatToString(sectorsRead), readTime,
             NatToString(writeOps), writesMerged, NatToString(sectorsWritten)] + rest)
  }

  /** Parsing a written-out line gives back its device and counters, with sectors in bytes; a
      virtual device's line gives nothing. */
  lemma DiskLineRoundTrip(major: String, minor: String, device: String, readOps: nat, merged: String,
                          sectorsRead: nat, readTime: String, writeOps: nat, writesMerged: String,
                          sectorsWritten: nat, rest: seq<String>)
    requires IsToken(major) && IsToken(minor) && IsToken(device) && IsToken(merged)
    requires IsToken(readTime) && IsToken(writesMerged)
    requires forall k :: 0 <= k < |rest| ==> IsToken(rest[k])
    requires readOps < U64_LIMIT && sectorsRead < U64_LIMIT && writeOps < U64_LIMIT && sectorsWritten < U64_LIMIT
    ensures Disks([DiskLine(major, minor, device, readOps, merged, sectorsRead, readTime, writeOps, writesMerged, sectorsWritten, rest)])
      == if IsVirtual(device) then []
         else [DeviceIoStats(device, 512 * sectorsRead, 512 * sectorsWritten, readOps, writeOps)]
  {
    var ts := [major, minor, device, NatToString(readOps), merged, NatToString(sectorsRead), readTime,
               NatToString(writeOps), writesMerged, NatToString(sectorsWritten)] + rest;
    var line := DiskLine(major, minor, device, readOps, merged, sectorsRead, readTime, writeOps, writesMerged, sectorsWritten, rest);
    DiskLineTokens(major, minor, device, readOps, merged, sectorsRead, readTime, writeOps, writesMerged, sectorsWritten, rest);
    assert Rows([line]) == [ts];
    DeviceOfNumbers(ts, device, readOps, sectorsRead, writeOps, sectorsWritten);
    assert [ts][..0] == [];
  }

  lemma DiskLineTokens(major: String, minor: String, device: String, readOps: nat, merged: String,
                       sectorsRead: nat, readTime: String, writeOps: nat, writesMerged: String,
                       sectorsWritten: nat, rest: seq<String>)
    requires IsToken(major) && IsToken(minor) && IsToken(device) && IsToken(merged)
    requires IsToken(readTime) && IsToken(writesMerged)
    requires forall k :: 0 <= k < |rest| ==> IsToken(rest[k])
    ensures SplitWhitespace(DiskLine(major, minor, device, readOps, merged, sectorsRead, readTime, writeOps, writesMerged, sectorsWritten, rest))
      == [major, minor, device, NatToString(readOps), merged, NatToString(sectorsRead), readTime,
          NatToString(writeOps), writesMerged, NatToString(sectorsWritten)] + rest
  {
    var ts := [major, minor, device, NatToString(readOps), merged, NatToString(sectorsRead), readTime,
               NatToString(writeOps), writesMerged, NatToString(sectorsWritten)] + rest;
    NumberIsToken(readOps);
    NumberIsToken(sectorsRead);
    NumberIsToken(writeOps);
    NumberIsToken(sectorsWritten);
    assert forall k :: 0 <= k < |ts| ==> IsToken(ts[k]) by {
      forall k | 0 <= k < |ts| ensures IsToken(ts[k]) {
        if k >= 10 { assert ts[k] == rest[k - 10]; }
      }
    }
    SplitUnwords(ts);
  }

  lemma DeviceOfNumbers(ts: seq<String>, device: String, readOps: nat, sectorsRead: nat, writeOps: nat, sectorsWritten: nat)
    requires |ts| >= 10 && ts[2] == device
    requires ts[3] == NatToString(readOps) && ts[5] == NatToString(sectorsRead)
    requires ts[7] == NatToString(writeOps) && ts[9] == NatToString(sectorsWritten)
    requires readOps < U64_LIMIT && sectorsRead < U64_LIMIT && writeOps < U64_LIMIT && sectorsWritten < U64_LIMIT
    ensures DeviceOfRow(ts) == if IsVirtual(device) then None
      else Some(DeviceIoStats(device, 512 * sectorsRead, 512 * sectorsWritten, readOps, writeOps))
  {
    ParseU64OfNatToString(readOps);
    ParseU64OfNatToString(sectorsRead);
    ParseU64OfNatToString(writeOps);
    ParseU64OfNatToString(sectorsWritten);
  }

  lemma NumberIsToken(n: nat)
    ensures IsToken(NatToString(n))
  {
    DigitsAreToken(NatToString(n));
  }

  /** The sda line of the diskstats sample: 90175 reads, 6941747 sectors read, 1609 writes and
      69328 sectors written give 3554174464 and 35495936 bytes. */
  lemma SdaExample()
    ensures Disks([DiskLine("8", "0", "sda", 90175, "15156", 6941747, "172836", 1609, "314", 69328,
                            ["0", "102770", "174825", "0", "0", "0", "0", "1", "0"])])
      == [DeviceIoStats("sda", 3554174464, 35495936, 90175, 1609)]
  {
    var rest := ["0", "102770", "174825", "0", "0", "0", "0", "1", "0"];
    SampleTokens();
    DiskLineRoundTrip("8", "0", "sda", 90175, "15156", 6941747, "172836", 1609, "314", 69328, rest);
    SdaIsNotVirtual();
  }

  lemma SdaIsNotVirtual()
    ensures !IsVirtual("sda")
  {
    var s := "sda";
    assert s[0] == 's';
    assert !("loop" <= s) && !("zram" <= s) && !("md1p" <= s);
  }

  lemma SampleTokens()
    ensures IsToken("8") && IsToken("0") && IsToken("sda") && IsToken("15156") && IsToken("172836") && IsToken("314")
    ensures IsToken("102770") && IsToken("174825") && IsToken("1")
  {
  }

  /** The ten lines of the diskstats sample, in file order. */
  const LOOP0_LINE: String :=
    DiskLine("7", "0", "loop0", 133549, "0", 8587416, "51112", 0, "0", 0, ["0", "0", "13992709", "51112", "0", "0", "0", "0", "0", "0"])
  const LOOP1_LINE: String :=
    DiskLine("7", "1", "loop1", 599, "0", 100360, "25", 0, "0", 0, ["0", "0", "31", "25", "0", "0", "0", "0", "0", "0"])
  const LOOP2_LINE: String :=
    DiskLine("7", "2", "loop2", 0, "0", 0, "0", 0, "0", 0, ["0", "0", "0", "0", "0", "0", "0", "0", "0", "0"])
  const LOOP3_LINE: String :=
    DiskLine("7", "3", "loop3", 0, "0", 0, "0", 0, "0", 0, ["0", "0", "0", "0", "0", "0", "0", "0", "0", "0"])
  const ZRAM0_LINE: String :=
    DiskLine("252", "0", "zram0", 0, "0", 0, "0", 0, "0", 0, ["0", "0", "0", "0", "0", "0", "0", "0", "0", "0"])
  const NVME0N1_LINE: String :=
    DiskLine("259", "4", "nvme0n1", 2745204, "0", 554989650, "559677", 1793083, "0", 67354640, ["334639", "0", "584873", "1134742", "59324", "0", "7646410160", "198553", "158575", "41872"])
  const NVME0N1P1_LINE: String :=
    DiskLine("259", "5", "nvme0n1p1", 2745099, "0", 554986698, "559672", 1793083, "0", 67354640, ["334639", "0", "967799", "1092866", "59324", "0", "7646410160", "198553", "0", "0"])
  const SDA_LINE: String :=
    DiskLine("8", "0", "sda", 90175, "15156", 6941747, "172836", 1609, "314", 69328, ["1989", "0", "102770", "174825", "0", "0", "0", "0", "1", "0"])
  const SDA1_LINE: String :=
    DiskLine("8", "1", "sda1", 90130, "15156", 6940427, "172803", 1609, "314", 69328, ["1989", "0", "103673", "174792", "0", "0", "0", "0", "0", "0"])
  const MD1P1_LINE: String :=
    DiskLine("9", "1", "md1p1", 0, "0", 0, "0", 0, "0", 0, ["0", "0", "0", "0", "0", "0", "0", "0", "0", "0"])
  const DISK_STATS_LINES: seq<String> :=
    [LOOP0_LINE, LOOP1_LINE, LOOP2_LINE, LOOP3_LINE, ZRAM0_LINE, NVME0N1_LINE, NVME0N1P1_LINE, SDA_LINE, SDA1_LINE, MD1P1_LINE]

  /** The diskstats sample: the loop, zram and md1p1 lines are skipped and the four remaining
      disks come out in file order with the byte and operation counts the unit test expects. */
  lemma DiskStatsFixture()
    ensures Disks(DISK_STATS_LINES) ==
      [DeviceIoStats("nvme0n1", 284154700800, 34485575680, 2745204, 1793083),
       DeviceIoStats("nvme0n1p1", 284153189376, 34485575680, 2745099, 1793083),
       DeviceIoStats("sda", 3554174464, 35495936, 90175, 1609),
       DeviceIoStats("sda1", 3553498624, 35495936, 90130, 1609)]
  {
    Loop0FixtureLine();
    Loop1FixtureLine();
    Loop2FixtureLine();
    Loop3FixtureLine();
    Zram0FixtureLine();
    Nvme0n1FixtureLine();
    Nvme0n1p1FixtureLine();
    SdaFixtureLine();
    Sda1FixtureLine();
    Md1p1FixtureLine();
    SixSkippedFourKept(LOOP0_LINE, LOOP1_LINE, LOOP2_LINE, LOOP3_LINE, ZRAM0_LINE, NVME0N1_LINE, NVME0N1P1_LINE,
                       SDA_LINE, SDA1_LINE, MD1P1_LINE);
  }

  /** Ten lines of which the first five and the last give nothing and the other four one disk
      each give those four disks, in order. */
  lemma SixSkippedFourKept(l0: String, l1: String, l2: String, l3: String, l4: String, l5: String, l6: String,
                           l7: String, l8: String, l9: String)
    requires Disks([l0]) == [] && Disks([l1]) == [] && Disks([l2]) == [] && Disks([l3]) == [] && Disks([l4]) == []
    requires Disks([l9]) == [] && |Disks([l5])| == 1 && |Disks([l6])| == 1 && |Disks([l7])| == 1 && |Disks([l8])| == 1
    ensures Disks([l0, l1, l2, l3, l4, l5, l6, l7, l8, l9]) ==
      [Disks([l5])[0], Disks([l6])[0], Disks([l7])[0], Disks([l8])[0]]
  {
    var l := [l0, l1, l2, l3, l4, l5, l6, l7, l8, l9];
    DisksOfTen(l);
    assert l[0] == l0 && l[1] == l1 && l[2] == l2 && l[3] == l3 && l[4] == l4;
    assert l[5] == l5 && l[6] == l6 && l[7] == l7 && l[8] == l8 && l[9] == l9;
    ConcatSkipsEmpty(Disks([l0]), Disks([l1]), Disks([l2]), Disks([l3]), Disks([l4]),
                     Disks([l5]), Disks([l6]), Disks([l7]), Disks([l8]), Disks([l9]));
  }

  lemma ConcatSkipsEmpty<T>(s0: seq<T>, s1: seq<T>, s2: seq<T>, s3: seq<T>, s4: seq<T>,
                            s5: seq<T>, s6: seq<T>, s7: seq<T>, s8: seq<T>, s9: seq<T>)
    requires s0 == [] && s1 == [] && s2 == [] && s3 == [] && s4 == [] && s9 == []
    requires |s5| == 1 && |s6| == 1 && |s7| == 1 && |s8| == 1
    ensures s0 + s1 + s2 + s3 + s4 + s5 + s6 + s7 + s8 + s9 == [s5[0], s6[0], s7[0], s8[0]]
  {
    assert s0 + s1 + s2 + s3 + s4 == [];
    assert s5 + s6 + s7 + s8 == [s5[0], s6[0], s7[0], s8[0]];
  }

  lemma Loop0FixtureLine()
    ensures Disks([LOOP0_LINE]) == []
  {
    assert IsToken("0") && IsToken("7") && IsToken("51112") && IsToken("loop0") && IsToken("13992709");
    assert IsVirtual("loop0");
    DiskLineRoundTrip("7", "0", "loop0", 133549, "0", 8587416, "51112", 0, "0", 0, ["0", "0", "13992709", "51112", "0", "0", "0", "0", "0", "0"]);
  }

  lemma Loop1FixtureLine()
    ensures Disks([LOOP1_LINE]) == []
  {
    assert IsToken("0") && IsToken("1") && IsToken("7") && IsToken("25") && IsToken("31") && IsToken("loop1");
    assert IsVirtual("loop1");
    DiskLineRoundTrip("7", "1", "loop1", 599, "0", 100360, "25", 0, "0", 0, ["0", "0", "31", "25", "0", "0", "0", "0", "0", "0"]);
  }

  lemma Loop2FixtureLine()
    ensures Disks([LOOP2_LINE]) == []
  {
    assert IsToken("0") && IsToken("2") && IsToken("7") && IsToken("loop2");
    assert IsVirtual("loop2");
    DiskLineRoundTrip("7", "2", "loop2", 0, "0", 0, "0", 0, "0", 0, ["0", "0", "0", "0", "0", "0", "0", "0", "0", "0"]);
  }

  lemma Loop3FixtureLine()
    ensures Disks([LOOP3_LINE]) == []
  {
    assert IsToken("0") && IsToken("3") && IsToken("7") && IsToken("loop3");
    assert IsVirtual("loop3");
    DiskLineRoundTrip("7", "3", "loop3", 0, "0", 0, "0", 0, "0", 0, ["0", "0", "0", "0", "0", "0", "0", "0", "0", "0"]);
  }

  lemma Zram0FixtureLine()
    ensures Disks([ZRAM0_LINE]) == []
  {
    assert IsToken("0") && IsToken("252") && IsToken("zram0");
    assert IsVirtual("zram0");
    DiskLineRoundTrip("252", "0", "zram0", 0, "0", 0, "0", 0, "0", 0, ["0", "0", "0", "0", "0", "0", "0", "0", "0", "0"]);
  }

  lemma Nvme0n1FixtureLine()
    ensures Disks([NVME0N1_LINE]) == [DeviceIoStats("nvme0n1", 284154700800, 34485575680, 2745204, 1793083)]
  {
    assert IsToken("0") && IsToken("4") && IsToken("259") && IsToken("41872") && IsToken("59324") && IsToken("158575") && IsToken("198553") && IsToken("334639") && IsToken("559677") && IsToken("584873") && IsToken("1134742") && IsToken("nvme0n1") && IsToken("7646410160");
    assert !IsVirtual("nvme0n1") by {
      var s := "nvme0n1";
      assert s[0] == 'n';
      assert !("loop" <= s) && !("zram" <= s) && !("md1p" <= s);
    }
    DiskLineRoundTrip("259", "4", "nvme0n1", 2745204, "0", 554989650, "559677", 1793083, "0", 67354640, ["334639", "0", "584873", "1134742", "59324", "0", "7646410160", "198553", "158575", "41872"]);
  }

  lemma Nvme0n1p1FixtureLine()
    ensures Disks([NVME0N1P1_LINE]) == [DeviceIoStats("nvme0n1p1", 284153189376, 34485575680, 2745099, 1793083)]
  {
    assert IsToken("0") && IsToken("5") && IsToken("259") && IsToken("59324") && IsToken("198553") && IsToken("334639") && IsToken("559672") && IsToken("967799") && IsToken("1092866") && IsToken("nvme0n1p1") && IsToken("7646410160");
    assert !IsVirtual("nvme0n1p1") by {
      var s := "nvme0n1p1";
      assert s[0] == 'n';
      assert !("loop" <= s) && !("zram" <= s) && !("md1p" <= s);
    }
    DiskLineRoundTrip("259", "5", "nvme0n1p1", 2745099, "0", 554986698, "559672", 1793083, "0", 67354640, ["334639", "0", "967799", "1092866", "59324", "0", "7646410160", "198553", "0", "0"]);
  }

  lemma SdaFixtureLine()
    ensures Disks([SDA_LINE]) == [DeviceIoStats("sda", 3554174464, 35495936, 90175, 1609)]
  {
    assert IsToken("0") && IsToken("1") && IsToken("8") && IsToken("314") && IsToken("sda") && IsToken("1989") && IsToken("15156") && IsToken("102770") && IsToken("172836") && IsToken("174825");
    assert !IsVirtual("sda") by {
      var s := "sda";
      assert s[0] == 's';
      assert !("loop" <= s) && !("zram" <= s) && !("md1p" <= s);
    }
    DiskLineRoundTrip("8", "0", "sda", 90175, "15156", 6941747, "172836", 1609, "314", 69328, ["1989", "0", "102770", "174825", "0", "0", "0", "0", "1", "0"]);
  }

  lemma Sda1FixtureLine()
    ensures Disks([SDA1_LINE]) == [DeviceIoStats("sda1", 3553498624, 35495936, 90130, 1609)]
  {
    assert IsToken("0") && IsToken("1") && IsToken("8") && IsToken("314") && IsToken("1989") && IsToken("sda1") && IsToken("15156") && IsToken("103673") && IsToken("172803") && IsToken("174792");
    assert !IsVirtual("sda1") by {
      var s := "sda1";
      assert s[0] == 's';
      assert !("loop" <= s) && !("zram" <= s) && !("md1p" <= s);
    }
    DiskLineRoundTrip("8", "1", "sda1", 90130, "15156", 6940427, "172803", 1609, "314", 69328, ["1989", "0", "103673", "174792", "0", "0", "0", "0", "0", "0"]);
  }

  lemma Md1p1FixtureLine()
    ensures Disks([MD1P1_LINE]) == []
  {
    assert IsToken("0") && IsToken("1") && IsToken("9") && IsToken("md1p1");
    assert IsVirtual("md1p1");
    DiskLineRoundTrip("9", "1", "md1p1", 0, "0", 0, "0", 0, "0", 0, ["0", "0", "0", "0", "0", "0", "0", "0", "0", "0"]);
  }

  /** The disks of ten lines are those of each line, one after the other. */
  lemma DisksOfTen(l: seq<String>)
    requires |l| == 10
    ensures Disks(l) == Disks([l[0]]) + Disks([l[1]]) + Disks([l[2]]) + Disks([l[3]]) + Disks([l[4]]) +
                        Disks([l[5]]) + Disks([l[6]]) + Disks([l[7]]) + Disks([l[8]]) + Disks([l[9]])
  {
    assert l == l[..10];
    assert l[..10] == l[..9] + [l[9]];
    DisksAppend(l[..9], [l[9]]);
    assert l[..9] == l[..8] + [l[8]];
    DisksAppend(l[..8], [l[8]]);
    assert l[..8] == l[..7] + [l[7]];
    DisksAppend(l[..7], [l[7]]);
    assert l[..7] == l[..6] + [l[6]];
    DisksAppend(l[..6], [l[6]]);
    assert l[..6] == l[..5] + [l[5]];
    DisksAppend(l[..5], [l[5]]);
    assert l[..5] == l[..4] + [l[4]];
    DisksAppend(l[..4], [l[4]]);
    assert l[..4] == l[..3] + [l[3]];
    DisksAppend(l[..3], [l[3]]);
    assert l[..3] == l[..2] + [l[2]];
    DisksAppend(l[..2], [l[2]]);
    assert l[..2] == l[..1] + [l[1]];
    DisksAppend(l[..1], [l[1]]);
    assert l[..1] == [l[0]];
  }
}
