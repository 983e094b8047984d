/** Per-dataset I/O counters from the ZFS objset kstat files (src/datasource/zfs_dataset.rs).
    The records are those of src/metrics/zfs_dataset.rs. The directory walk is given as a value:
    the pool directories, their entries and what reading each objset file returned. */
module ZfsDatasetSource {
  import opened Wrappers
  import opened Text
  import opened Reader

  const KSTAT_ZFS: String := "/proc/spl/kstat/zfs"

  datatype DatasetIoStats = DatasetIoStats(pool: String, dataset: String, readCount: nat, writeCount: nat, nread: nat, nwritten: nat)

  /** `timestamp` is the caller's clock in milliseconds. */
  datatype ZfsIoStats = ZfsIoStats(timestamp: int, datasets: seq<DatasetIoStats>)

  /** Every row has a name, a type and a value. */
  predicate WellFormed(rows: seq<seq<String>>) {
    forall k :: 0 <= k < |rows| ==> |rows[k]| >= 3
  }

  /** The value (third token) of the last row whose name is `name`. */
  function LastValue(rows: seq<seq<String>>, name: String): Option<String> {
    if rows == [] then None
    else
      var t := rows[|rows| - 1];
      if |t| >= 3 && t[0] == name then Some(t[2]) else LastValue(rows[..|rows| - 1], name)
  }

  /** The counter `name`: the last value given for it as a u64, 0 when absent or unparseable. */
  function Counter(rows: seq<seq<String>>, name: String): (v: nat)
    ensures v < U64_LIMIT
    ensures LastValue(rows, name).None? ==> v == 0
  {
    match LastValue(rows, name)
    case None => 0
    case Some(v) => ParseU64(v).GetOr(0)
  }

  /** The dataset described by the rows after the header: nothing if a row lacks a value, if no
      dataset_name was given or if the dataset is a snapshot ('@'). */
  function StatsOfRows(pool: String, rows: seq<seq<String>>): (r: Option<DatasetIoStats>)
    ensures r.Some? ==> r.value.pool == pool && r.value.dataset != [] && '@' !in r.value.dataset
    ensures r.Some? ==> WellFormed(rows) && LastValue(rows, "dataset_name") == Some(r.value.dataset)
    ensures WellFormed(rows) && LastValue(rows, "dataset_name").None? ==> r.None?
    ensures r.Some? ==> r.value.readCount == Counter(rows, "reads") && r.value.writeCount == Counter(rows, "writes") &&
                        r.value.nread == Counter(rows, "nread") && r.value.nwritten == Counter(rows, "nwritten")
    ensures forall ds :: WellFormed(rows) && LastValue(rows, "dataset_name") == Some(ds) && ds != [] && '@' !in ds ==>
      r.Some? && r.value.dataset == ds
  {
    if !WellFormed(rows) then None
    else
      var ds := LastValue(rows, "dataset_name").GetOr("");
      if ds == [] || '@' in ds then None
      else Some(DatasetIoStats(pool, ds, Counter(rows, "reads"), Counter(rows, "writes"),
                               Counter(rows, "nread"), Counter(rows, "nwritten")))
  }

  /** What `parse_objset` yields for an objset file's lines. */
  function ObjsetStats(pool: String, lines: seq<String>): Option<DatasetIoStats> {
    StatsOfRows(pool, Rows(Body(lines)))
  }

  /** `parse_objset`: one pass over the body lines, giving up at the first line without a value. */
  method ParseObjset(pool: String, content: String) returns (r: Option<DatasetIoStats>)
    ensures r == ObjsetStats(pool, Lines(content))
  {
    r := ScanObjset(pool, Lines(content));
  }

  method ScanObjset(pool: String, lines: seq<String>) returns (r: Option<DatasetIoStats>)
    ensures r == ObjsetStats(pool, lines)
  {
    var body := Body(lines);
    ghost var rows := Rows(body);
    var dsName: String := "";
    var readCount, writeCount, nread, nwritten := 0, 0, 0, 0;
    for i := 0 to |body|
      invariant WellFormed(rows[..i])
      invariant dsName == LastValue(rows[..i], "dataset_name").GetOr("")
      invariant readCount == Counter(rows[..i], "reads") && writeCount == Counter(rows[..i], "writes")
      invariant nread == Counter(rows[..i], "nread") && nwritten == Counter(rows[..i], "nwritten")
    {
      var parts := SplitWhitespace(body[i]);
      assert parts == rows[i];
      if |parts| < 3 {
        assert !WellFormed(rows);
        return None;
      }
      RowsSnoc(rows, i, "dataset_name");
      RowsSnoc(rows, i, "reads");
      RowsSnoc(rows, i, "writes");
      RowsSnoc(rows, i, "nread");
      RowsSnoc(rows, i, "nwritten");
      var name, value := parts[0], parts[2];
      if name == "dataset_name" {
        dsName := value;
      } else if name == "reads" {
        readCount := ParseU64(value).GetOr(0);
      } else if name == "writes" {
        writeCount := ParseU64(value).GetOr(0);
      } else if name == "nread" {
        nread := ParseU64(value).GetOr(0);
      } else if name == "nwritten" {
        nwritten := ParseU64(value).GetOr(0);
      }
    }
    assert rows[..|body|] == rows;
    if dsName == [] || '@' in dsName {
      return None;
    }
    r := Some(DatasetIoStats(pool, dsName, readCount, writeCount, nread, nwritten));
  }

  /** One more well-formed row: the prefix stays well formed and each field's last value is the
      row's own when it names that field. */
  lemma RowsSnoc(rows: seq<seq<String>>, i: nat, name: String)
    requires i < |rows| && |rows[i]| >= 3 && WellFormed(rows[..i])
    ensures WellFormed(rows[..i + 1])
    ensures LastValue(rows[..i + 1], name) == if rows[i][0] == name then Some(rows[i][2]) else LastValue(rows[..i], name)
  {
    assert rows[..i + 1][..i] == rows[..i];
    assert rows[..i + 1][i] == rows[i];
  }

  predicate IsField(name: String) {
    name == "dataset_name" || name == "reads" || name == "writes" || name == "nread" || name == "nwritten"
  }

  /** Rows that are well formed and name none of the five fields leave the result unchanged:
      other kstats in the file do not disturb the parse. */
  lemma ExtraStatsIgnored(pool: String, rows: seq<seq<String>>, extra: seq<seq<String>>)
    requires WellFormed(extra)
    requires forall k :: 0 <= k < |extra| ==> !IsField(extra[k][0])
    ensures StatsOfRows(pool, rows + extra) == StatsOfRows(pool, rows)
  {
    LastValueIgnoresOthers(rows, extra, "dataset_name");
    LastValueIgnoresOthers(rows, extra, "reads");
    LastValueIgnoresOthers(rows, extra, "writes");
    LastValueIgnoresOthers(rows, extra, "nread");
    LastValueIgnoresOthers(rows, extra, "nwritten");
    assert WellFormed(rows + extra) <==> WellFormed(rows) by {
      if WellFormed(rows + extra) {
        forall k | 0 <= k < |rows| ensures |rows[k]| >= 3 { assert rows[k] == (rows + extra)[k]; }
      }
    }
  }

  lemma {:induction false} LastValueIgnoresOthers(rows: seq<seq<String>>, extra: seq<seq<String>>, name: String)
    requires WellFormed(extra) && IsField(name)
    requires forall k :: 0 <= k < |extra| ==> !IsField(extra[k][0])
    ensures LastValue(rows + extra, name) == LastValue(rows, name)
    decreases |extra|
  {
    if extra == [] {
      assert rows + extra == rows;
    } else {
      var e := extra[..|extra| - 1];
      assert (rows + extra)[..|rows + extra| - 1] == rows + e;
      LastValueIgnoresOthers(rows, e, name);
    }
  }

  /** An objset file as the kernel writes it: two header lines, then "name type value" lines. */
  function ObjsetLines(header1: String, header2: String, dataset: String, readCount: nat, writeCount: nat, nread: nat, nwritten: nat): seq<String> {
    [header1, header2,
     Unwords(["dataset_name", "string", dataset]),
     Unwords(["reads", "u64", NatToString(readCount)]),
     Unwords(["writes", "u64", NatToString(writeCount)]),
     Unwords(["nread", "u64", NatToString(nread)]),
     Unwords(["nwritten", "u64", NatToString(nwritten)])]
  }

  /** Writing a dataset's counters as an objset file and parsing it gives them back; the same
      file for a snapshot gives nothing. */
  lemma ObjsetRoundTrip(pool: String, header1: String, header2: String, dataset: String,
                        readCount: nat, writeCount: nat, nread: nat, nwritten: nat)
    requires IsToken(dataset)
    requires readCount < U64_LIMIT && writeCount < U64_LIMIT && nread < U64_LIMIT && nwritten < U64_LIMIT
    ensures ObjsetStats(pool, ObjsetLines(header1, header2, dataset, readCount, writeCount, nread, nwritten))
      == if '@' in dataset then None else Some(DatasetIoStats(pool, dataset, readCount, writeCount, nread, nwritten))
  {
    var values := [dataset, NatToString(readCount), NatToString(writeCount), NatToString(nread), NatToString(nwritten)];
    RowsOfObjsetLines(header1, header2, dataset, readCount, writeCount, nread, nwritten);
    StatsOfFieldRows(pool, values);
    ParseU64OfNatToString(readCount);
    ParseU64OfNatToString(writeCount);
    ParseU64OfNatToString(nread);
    ParseU64OfNatToString(nwritten);
  }

  lemma RowsOfObjsetLines(header1: String, header2: String, dataset: String,
                          readCount: nat, writeCount: nat, nread: nat, nwritten: nat)
    requires IsToken(dataset)
    requires readCount < U64_LIMIT && writeCount < U64_LIMIT && nread < U64_LIMIT && nwritten < U64_LIMIT
    ensures Rows(Body(ObjsetLines(header1, header2, dataset, readCount, writeCount, nread, nwritten)))
      == FieldRows([dataset, NatToString(readCount), NatToString(writeCount), NatToString(nread), NatToString(nwritten)])
  {
    var a := Unwords(["dataset_name", "string", dataset]);
    var b := Unwords(["reads", "u64", NatToString(readCount)]);
    var c := Unwords(["writes", "u64", NatToString(writeCount)]);
    var d := Unwords(["nread", "u64", NatToString(nread)]);
    var e := Unwords(["nwritten", "u64", NatToString(nwritten)]);
    RowsOfSeven(header1, header2, a, b, c, d, e);
    FieldNamesAreTokens();
    FieldLine("dataset_name", "string", dataset);
    FormattedCounter("reads", readCount);
    FormattedCounter("writes", writeCount);
    FormattedCounter("nread", nread);
    FormattedCounter("nwritten", nwritten);
  }

  lemma RowsOfSeven(h1: String, h2: String, a: String, b: String, c: String, d: String, e: String)
    ensures Rows(Body([h1, h2, a, b, c, d, e]))
      == [SplitWhitespace(a), SplitWhitespace(b), SplitWhitespace(c), SplitWhitespace(d), SplitWhitespace(e)]
  {
    assert Body([h1, h2, a, b, c, d, e]) == [a, b, c, d, e];
  }

  lemma FieldNamesAreTokens()
    ensures IsToken("dataset_name") && IsToken("string") && IsToken("u64")
    ensures IsToken("reads") && IsToken("writes") && IsToken("nread") && IsToken("nwritten")
  {
  }

  /** The five field rows in the kernel's order. */
  function FieldRows(values: seq<String>): seq<seq<String>>
    requires |values| == 5
  {
    [["dataset_name", "string", values[0]], ["reads", "u64", values[1]], ["writes", "u64", values[2]],
     ["nread", "u64", values[3]], ["nwritten", "u64", values[4]]]
  }

  lemma StatsOfFieldRows(pool: String, values: seq<String>)
    requires |values| == 5
    ensures StatsOfRows(pool, FieldRows(values)) == if values[0] == [] || '@' in values[0] then None
      else Some(DatasetIoStats(pool, values[0], ParseU64(values[1]).GetOr(0), ParseU64(values[2]).GetOr(0),
                               ParseU64(values[3]).GetOr(0), ParseU64(values[4]).GetOr(0)))
  {
    var rows := FieldRows(values);
    FieldNamesDistinct();
    LastValueIsLastRow(rows, "dataset_name", 0);
    LastValueIsLastRow(rows, "reads", 1);
    LastValueIsLastRow(rows, "writes", 2);
    LastValueIsLastRow(rows, "nread", 3);
    LastValueIsLastRow(rows, "nwritten", 4);
  }

  lemma FieldNamesDistinct()
    ensures "dataset_name" != "reads" && "dataset_name" != "writes" && "dataset_name" != "nread" && "dataset_name" != "nwritten"
    ensures "reads" != "writes" && "reads" != "nread" && "reads" != "nwritten"
    ensures "writes" != "nread" && "writes" != "nwritten" && "nread" != "nwritten"
  {
    assert |"dataset_name"| == 12 && |"reads"| == 5 && |"writes"| == 6 && |"nread"| == 5 && |"nwritten"| == 8;
    assert "reads"[0] != "nread"[0];
  }

  /** LastValue finds the last row with the name. */
  lemma {:induction false} LastValueIsLastRow(rows: seq<seq<String>>, name: String, k: nat)
    requires k < |rows| && |rows[k]| >= 3 && rows[k][0] == name
    requires forall j :: k < j < |rows| ==> rows[j] == [] || rows[j][0] != name
    ensures LastValue(rows, name) == Some(rows[k][2])
    decreases |rows|
  {
    if k < |rows| - 1 {
      LastValueIsLastRow(rows[..|rows| - 1], name, k);
    }
  }

  lemma FieldLine(name: String, kind: String, value: String)
    requires IsToken(name) && IsToken(kind) && IsToken(value)
    ensures SplitWhitespace(Unwords([name, kind, value])) == [name, kind, value]
  {
    SplitUnwords([name, kind, value]);
  }

  lemma FormattedCounter(name: String, n: nat)
    requires IsToken(name) && n < U64_LIMIT
    ensures SplitWhitespace(Unwords([name, "u64", NatToString(n)])) == [name, "u64", NatToString(n)]
    ensures ParseU64(NatToString(n)) == Some(n)
  {
    DigitsAreToken(NatToString(n));
    FieldLine(name, "u64", NatToString(n));
    ParseU64OfNatToString(n);
  }

  // ---------------------------------------------------------------------------------------------
  // The directory walk

  /** An entry of a pool directory, and what reading it returns (looked at only for objset files). */
  datatype ObjsetFile = ObjsetFile(fileName: String, content: IoResult<String>)

  /** An entry of /proc/spl/kstat/zfs: its name, whether it is a directory, and its listing. */
  datatype PoolEntry = PoolEntry(name: String, isDir: bool, listing: IoResult<seq<ObjsetFile>>)

  predicate IsObjsetFile(f: ObjsetFile) {
    StartsWith(f.fileName, "objset-")
  }

  /** The datasets of a pool's entries, in listing order; the first failed read is the error. */
  function FilesDatasets(pool: String, files: seq<ObjsetFile>): (r: Result<seq<DatasetIoStats>>)
    ensures r.Ok? ==> forall k :: 0 <= k < |r.value| ==> r.value[k].pool == pool && r.value[k].dataset != [] && '@' !in r.value[k].dataset
    ensures r.Ok? ==> |r.value| <= |files|
  {
    if files == [] then Ok([])
    else match FilesDatasets(pool, files[..|files| - 1])
      case Err(m) => Err(m)
      case Ok(ds) =>
        var f := files[|files| - 1];
        if !IsObjsetFile(f) then Ok(ds)
        else match f.content
          case IoErr(_, m) => Err(m)
          case IoOk(text) =>
            match ObjsetStats(pool, Lines(text))
            case None => Ok(ds)
            case Some(stats) => Ok(ds + [stats])
  }

  /** The datasets of every pool directory, in listing order; the first failure is the error. */
  function PoolsDatasets(pools: seq<PoolEntry>): (r: Result<seq<DatasetIoStats>>)
    ensures r.Ok? ==> forall k :: 0 <= k < |r.value| ==> r.value[k].dataset != [] && '@' !in r.value[k].dataset
  {
    if pools == [] then Ok([])
    else match PoolsDatasets(pools[..|pools| - 1])
      case Err(m) => Err(m)
      case Ok(ds) =>
        var p := pools[|pools| - 1];
        if !p.isDir then Ok(ds)
        else match p.listing
          case IoErr(_, m) => Err(m)
          case IoOk(files) =>
            match FilesDatasets(p.name, files)
            case Err(m) => Err(m)
            case Ok(more) =>
              Ok(ds + more)
  }

  /** `dataset_io`: walks the pool directories and the objset files in them. */
  method DatasetIo(root: IoResult<seq<PoolEntry>>, now: int) returns (r: Result<ZfsIoStats>)
    ensures root.IoErr? ==> r == Err(root.message)
    ensures root.IoOk? ==> match PoolsDatasets(root.value)
      case Err(m) => r == Err(m)
      case Ok(ds) => r == Ok(ZfsIoStats(now, ds))
  {
    if root.IoErr? {
      return Err(root.message);
    }
    var pools := root.value;
    var datasets: seq<DatasetIoStats> := [];
    for i := 0 to |pools|
      invariant PoolsDatasets(pools[..i]) == Ok(datasets)
    {
      assert pools[..i + 1][..i] == pools[..i];
      var pool := pools[i];
      if pool.isDir {
        if pool.listing.IoErr? {
          assert PoolsDatasets(pools[..i + 1]).Err?;
          PoolsErrorPersists(pools, i + 1);
          return Err(pool.listing.message);
        }
        var found := PoolFilesDatasets(pool.name, pool.listing.value);
        if found.Err? {
          assert PoolsDatasets(pools[..i + 1]) == Err(found.error);
          PoolsErrorPersists(pools, i + 1);
          return Err(found.error);
        }
        datasets := datasets + found.value;
      }
    }
    assert pools[..|pools|] == pools;
    r := Ok(ZfsIoStats(now, datasets));
  }

  /** The objset files of one pool directory, in listing order. */
  method PoolFilesDatasets(pool: String, files: seq<ObjsetFile>) returns (r: Result<seq<DatasetIoStats>>)
    ensures r == FilesDatasets(pool, files)
  {
    var found: seq<DatasetIoStats> := [];
    for j := 0 to |files|
      invariant FilesDatasets(pool, files[..j]) == Ok(found)
    {
      assert files[..j + 1][..j] == files[..j];
      var file := files[j];
      if IsObjsetFile(file) {
        if file.content.IoErr? {
          FilesErrorPersists(pool, files, j + 1);
          return Err(file.content.message);
        }
        var stats := ScanObjset(pool, Lines(file.content.value));
        if stats.Some? {
          found := found + [stats.value];
        }
      }
    }
    assert files[..|files|] == files;
    r := Ok(found);
  }

  /** Once a prefix of the pools fails, every longer prefix fails with the same error. */
  lemma {:induction false} PoolsErrorPersists(pools: seq<PoolEntry>, n: nat)
    requires n <= |pools| && PoolsDatasets(pools[..n]).Err?
    ensures PoolsDatasets(pools) == PoolsDatasets(pools[..n])
    decreases |pools| - n
  {
    if n == |pools| {
      assert pools[..n] == pools;
    } else {
      assert pools[..n + 1][..n] == pools[..n];
      PoolsErrorPersists(pools, n + 1);
    }
  }

  lemma {:induction false} FilesErrorPersists(pool: String, files: seq<ObjsetFile>, n: nat)
    requires n <= |files| && FilesDatasets(pool, files[..n]).Err?
    ensures FilesDatasets(pool, files) == FilesDatasets(pool, files[..n])
    decreases |files| - n
  {
    if n == |files| {
      assert files[..n] == files;
    } else {
      assert files[..n + 1][..n] == files[..n];
      FilesErrorPersists(pool, files, n + 1);
    }
  }
}
