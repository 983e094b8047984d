/** The ARC statistics reader of src/datasource/zfs_arc_stat.rs. The kstat file has two header
    lines, then "name type value" lines. The record is the one of src/metrics/zfs_arc.rs. */
module ZfsArcSource {
  import opened Wrappers
  import opened Text
  import opened Reader

  const PATH_ARCSTATS: String := "/proc/spl/kstat/zfs/arcstats"

  /** `timestamp` is the caller's clock after the read, in milliseconds. */
  datatype ArcStats = ArcStats(timestamp: int, hits: nat, misses: nat, size: nat, targetSize: nat, maxSize: nat)

  /** What one line's tokens contribute: its name and value, or nothing when the value token is
      missing or is not a u64. */
  function Reading(t: seq<String>): (r: Option<(String, nat)>)
    ensures r.Some? <==> |t| >= 3 && ParseU64(t[2]).Some?
    ensures r.Some? ==> r.value == (t[0], ParseU64(t[2]).value)
  {
    if |t| < 3 then None
    else match ParseU64(t[2])
      case None => None
      case Some(v) => Some((t[0], v))
  }

  /** The value of the last line that gives `name` a u64 value. */
  function LastReading(rows: seq<seq<String>>, name: String): Option<nat> {
    if rows == [] then None
    else match Reading(rows[|rows| - 1])
      case Some((n, v)) => if n == name then Some(v) else LastReading(rows[..|rows| - 1], name)
      case None => LastReading(rows[..|rows| - 1], name)
  }

  /** A statistic: its last valid value, 0 when it never got one. */
  function Stat(rows: seq<seq<String>>, name: String): (v: nat)
    ensures v < U64_LIMIT
  {
    match LastReading(rows, name)
    case None => 0
    case Some(v) => ParseU64Bound(rows, name); v
  }

  lemma {:induction false} ParseU64Bound(rows: seq<seq<String>>, name: String)
    ensures LastReading(rows, name).Some? ==> LastReading(rows, name).value < U64_LIMIT
    decreases |rows|
  {
    if rows != [] {
      ParseU64Bound(rows[..|rows| - 1], name);
    }
  }

  /** The statistics of an arcstats file: hits, misses, size, c (target size) and c_max. */
  function ArcStatsOf(timestamp: int, lines: seq<String>): ArcStats {
    var rows := Rows(Body(lines));
    ArcStats(timestamp, Stat(rows, "hits"), Stat(rows, "misses"), Stat(rows, "size"), Stat(rows, "c"), Stat(rows, "c_max"))
  }

  /** `arc_stats`, given what reading the arcstats file returned and the clock after the read. */
  method ReadArcStats(read: IoResult<String>, now: int) returns (r: Result<ArcStats>)
    ensures read.IoErr? ==> r == Err(read.message)
    ensures read.IoOk? ==> r == Ok(ArcStatsOf(now, Lines(read.value)))
  {
    if read.IoErr? {
      return Err(read.message);
    }
    var stats := ScanArcStats(now, Lines(read.value));
    r := Ok(stats);
  }

  method ScanArcStats(now: int, lines: seq<String>) returns (stats: ArcStats)
    ensures stats == ArcStatsOf(now, lines)
  {
    var body := Body(lines);
    ghost var rows := Rows(body);
    stats := ArcStats(now, 0, 0, 0, 0, 0);
    for i := 0 to |body|
      invariant stats == ArcStats(now, Stat(rows[..i], "hits"), Stat(rows[..i], "misses"), Stat(rows[..i], "size"),
                                  Stat(rows[..i], "c"), Stat(rows[..i], "c_max"))
    {
      assert rows[..i + 1][..i] == rows[..i];
      var parts := SplitWhitespace(body[i]);
      assert parts == rows[i];
      if |parts| < 1 {
        continue;
      }
      var name := parts[0];
      if |parts| < 3 {
        continue;
      }
      var parsed := ParseU64(parts[2]);
      if parsed.None? {
        continue;
      }
      var value := parsed.value;
      if name == "hits" {
        stats := stats.(hits := value);
      } else if name == "misses" {
        stats := stats.(misses := value);
      } else if name == "size" {
        stats := stats.(size := value);
      } else if name == "c" {
        stats := stats.(targetSize := value);
      } else if name == "c_max" {
        stats := stats.(maxSize := value);
      }
    }
    assert rows[..|body|] == rows;
  }

  /** One more line: a valid value for `name` becomes the statistic; a line for another name, a
      line without a value and a line whose value is not a u64 leave it as it was. */
  lemma StatAppend(rows: seq<seq<String>>, t: seq<String>, name: String)
    ensures Stat(rows + [t], name) ==
      if |t| >= 3 && t[0] == name && ParseU64(t[2]).Some? then ParseU64(t[2]).value else Stat(rows, name)
  {
    assert (rows + [t])[..|rows|] == rows;
  }

  /** A statistic that no line names stays 0. */
  lemma {:induction false} StatAbsent(rows: seq<seq<String>>, name: String)
    requires forall k :: 0 <= k < |rows| ==> rows[k] == [] || rows[k][0] != name
    ensures Stat(rows, name) == 0
    decreases |rows|
  {
    if rows != [] {
      StatAbsent(rows[..|rows| - 1], name);
    }
  }

  /** The lines of an arcstats file with the five statistics the collector reads. */
  function ArcLines(header1: String, header2: String, hits: nat, misses: nat, size: nat, c: nat, cMax: nat): seq<String> {
    [header1, header2,
     Unwords(["hits", "4", NatToString(hits)]),
     Unwords(["misses", "4", NatToString(misses)]),
     Unwords(["size", "4", NatToString(size)]),
     Unwords(["c", "4", NatToString(c)]),
     Unwords(["c_max", "4", NatToString(cMax)])]
  }

  /** Writing the five statistics as an arcstats file and reading it gives them back. */
  lemma ArcRoundTrip(now: int, header1: String, header2: String, hits: nat, misses: nat, size: nat, c: nat, cMax: nat)
    requires hits < U64_LIMIT && misses < U64_LIMIT && size < U64_LIMIT && c < U64_LIMIT && cMax < U64_LIMIT
    ensures ArcStatsOf(now, ArcLines(header1, header2, hits, misses, size, c, cMax)) == ArcStats(now, hits, misses, size, c, cMax)
  {
    ArcRows(header1, header2, hits, misses, size, c, cMax);
    ParseU64OfNatToString(hits);
    ParseU64OfNatToString(misses);
    ParseU64OfNatToString(size);
    ParseU64OfNatToString(c);
    ParseU64OfNatToString(cMax);
    StatsOfArcRows([NatToString(hits), NatToString(misses), NatToString(size), NatToString(c), NatToString(cMax)]);
  }

  /** The five statistic rows in the kernel's order, with the given value tokens. */
  function ArcRowsOf(values: seq<String>): seq<seq<String>>
    requires |values| == 5
  {
    [["hits", "4", values[0]], ["misses", "4", values[1]], ["size", "4", values[2]],
     ["c", "4", values[3]], ["c_max", "4", values[4]]]
  }

  lemma StatsOfArcRows(values: seq<String>)
    requires |values| == 5
    requires forall k :: 0 <= k < 5 ==> ParseU64(values[k]).Some?
    ensures var rows := ArcRowsOf(values);
      Stat(rows, "hits") == ParseU64(values[0]).value && Stat(rows, "misses") == ParseU64(values[1]).value &&
      Stat(rows, "size") == ParseU64(values[2]).value && Stat(rows, "c") == ParseU64(values[3]).value &&
      Stat(rows, "c_max") == ParseU64(values[4]).value
  {
    var rows := ArcRowsOf(values);
    NamesDistinct();
    LastReadingIsLastRow(rows, "hits", 0);
    LastReadingIsLastRow(rows, "misses", 1);
    LastReadingIsLastRow(rows, "size", 2);
    LastReadingIsLastRow(rows, "c", 3);
    LastReadingIsLastRow(rows, "c_max", 4);
  }

  lemma ArcRows(header1: String, header2: String, hits: nat, misses: nat, size: nat, c: nat, cMax: nat)
    ensures Rows(Body(ArcLines(header1, header2, hits, misses, size, c, cMax))) ==
      ArcRowsOf([NatToString(hits), NatToString(misses), NatToString(size), NatToString(c), NatToString(cMax)])
  {
    var lines := ArcLines(header1, header2, hits, misses, size, c, cMax);
    var body := Body(lines);
    assert body == lines[2..];
    var rows := Rows(body);
    var want := ArcRowsOf([NatToString(hits), NatToString(misses), NatToString(size), NatToString(c), NatToString(cMax)]);
    assert |rows| == 5 == |want|;
    assert rows[0] == want[0] by { NameLine("hits", hits); }
    assert rows[1] == want[1] by { NameLine("misses", misses); }
    assert rows[2] == want[2] by { NameLine("size", size); }
    assert rows[3] == want[3] by { NameLine("c", c); }
    assert rows[4] == want[4] by { NameLine("c_max", cMax); }
    assert rows == want;
  }

  lemma NameLine(name: String, v: nat)
    requires name in ["hits", "misses", "size", "c", "c_max"]
    ensures SplitWhitespace(Unwords([name, "4", NatToString(v)])) == [name, "4", NatToString(v)]
  {
    DigitsAreToken(NatToString(v));
    assert IsToken("4");
    SplitUnwords([name, "4", NatToString(v)]);
  }

  lemma NamesDistinct()
    ensures "hits" != "misses" && "hits" != "size" && "hits" != "c" && "hits" != "c_max"
    ensures "misses" != "size" && "misses" != "c" && "misses" != "c_max"
    ensures "size" != "c" && "size" != "c_max" && "c" != "c_max"
  {
    assert |"hits"| == 4 && |"misses"| == 6 && |"size"| == 4 && |"c"| == 1 && |"c_max"| == 5;
    assert "hits"[0] != "size"[0];
  }

  /** The last row naming `name` with a valid value decides it. */
  lemma {:induction false} LastReadingIsLastRow(rows: seq<seq<String>>, name: String, k: nat)
    requires k < |rows| && |rows[k]| >= 3 && rows[k][0] == name && ParseU64(rows[k][2]).Some?
    requires forall j :: k < j < |rows| ==> rows[j] == [] || rows[j][0] != name
    ensures LastReading(rows, name) == ParseU64(rows[k][2])
    decreases |rows|
  {
    if k < |rows| - 1 {
      LastReadingIsLastRow(rows[..|rows| - 1], name, k);
    }
  }

  /** A malformed value leaves its statistic at 0 while a later valid line still counts: the
      rows "hits 4 NOT_A_NUMBER" and "misses 4 50" give hits 0 and misses 50. */
  lemma MalformedValueExample()
    ensures var rows := [["hits", "4", "NOT_A_NUMBER"], ["misses", "4", NatToString(50)]];
      Stat(rows, "hits") == 0 && Stat(rows, "misses") == 50
  {
    var bad, good := ["hits", "4", "NOT_A_NUMBER"], ["misses", "4", NatToString(50)];
    assert ParseU64("NOT_A_NUMBER").None? by {
      assert "NOT_A_NUMBER"[0] == 'N';
    }
    ParseU64OfNatToString(50);
    NamesDistinct();
    StatAppend([], bad, "hits");
    StatAppend([bad], good, "hits");
    StatAppend([bad], good, "misses");
    assert [] + [bad] == [bad];
    assert [bad] + [good] == [bad, good];
  }
}
