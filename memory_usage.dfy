/** Memory and swap figures from /proc/meminfo (src/datasource/memory_usage.rs). The records
    SwapStats and RamStats are those of src/metrics/memory_usage.rs. The file's content is
    passed in as the result of reading it. */
module MemoryUsageSource {
  import opened Wrappers
  import opened Text
  import opened Seqs
  import opened Reader

  const PATH_MEM_INFO: String := "/proc/meminfo"

  datatype SwapStats = SwapStats(total: nat, used: nat, free: nat)

  datatype RamStats = RamStats(total: nat, used: nat, free: nat, available: nat, buffers: nat, cache: nat)

  /** The multiplier a unit suffix stands for; None for a unit the parser rejects. */
  function UnitFactor(unit: String): Option<nat> {
    if unit == "" then Some(1)
    else if unit == "kB" then Some(1024)
    else if unit == "mB" then Some(1024 * 1024)
    else None
  }

  /** `value` scaled by the factor of `unit`, or None for an unknown unit. */
  function Scale(value: nat, unit: String): Option<nat> {
    match UnitFactor(unit)
    case None => None
    case Some(f) => Some(value * f)
  }

  /** The value part of a line, after its ':': the text up to the last space of the trimmed
      rest (0 when it is not a u64), scaled by the unit after that space. */
  function ParseValue(rest: String): Option<nat> {
    var parts := RSplitOnce(TrimStart(rest), ' ');
    var value := if parts.None? then rest else parts.value.0;
    var unit := if parts.None? then "" else parts.value.1;
    Scale(ParseU64(Trim(value)).GetOr(0), Trim(unit))
  }

  /** `parse_line`: the key is the text before the first ':' and the value is parsed from the
      rest. A line without ':' or with an unknown unit yields nothing. */
  function ParseLine(line: String): (r: Option<(String, nat)>)
    ensures ':' !in line ==> r.None?
    ensures r.Some? ==> ':' !in r.value.0 && r.value.0 + [':'] <= line
  {
    var split := SplitOnce(line, ':');
    if split.None? then None
    else
      var key := split.value.0;
      assert line[..|key| + 1] == key + [':'];
      match ParseValue(split.value.1)
      case None => None
      case Some(v) => Some((key, v))
  }

  /** A line as the kernel writes it — key, ':', padding, a value token and an optional unit
      after one space — parses back to its key and the token's u64 value (0 when the token is
      not a u64) scaled by the unit, and to nothing when the unit is unknown. */
  lemma ParseFormattedLine(key: String, pad: String, word: String, unit: String)
    requires ':' !in key && AllWhitespace(pad) && IsToken(word)
    requires unit == [] || IsToken(unit)
    ensures var line := key + ":" + pad + word + (if unit == [] then [] else " " + unit);
      ParseLine(line) == match Scale(ParseU64(word).GetOr(0), unit)
        case None => None
        case Some(v) => Some((key, v))
  {
    var tail: String := if unit == [] then [] else " " + unit;
    var rest := pad + word + tail;
    var line := key + ":" + pad + word + tail;
    assert line == key + [':'] + rest;
    SplitOnceUnique(line, ':', key, rest);
    ParseFormattedValue(pad, word, unit);
    ParseLineOfSplit(line, key, rest);
  }

  /** A value that is not a u64 reads as 0 and the line is still kept when its unit is known:
      "Foo: abc kB" is ("Foo", 0). */
  lemma NonNumericValueIsZero(key: String, pad: String, word: String, unit: String)
    requires ':' !in key && AllWhitespace(pad) && IsToken(word) && ParseU64(word).None?
    requires unit == "" || unit == "kB" || unit == "mB"
    ensures ParseLine(key + ":" + pad + word + (if unit == [] then [] else " " + unit)) == Some((key, 0))
  {
    assert unit == [] || IsToken(unit);
    ParseFormattedLine(key, pad, word, unit);
  }

  /** A line whose value is digits: the key and the digits' value scaled by the unit. */
  lemma ParseDigitsLine(key: String, pad: String, digits: String, unit: String)
    requires ':' !in key && AllWhitespace(pad)
    requires digits != [] && AllDigits(digits) && DigitsValue(digits) < U64_LIMIT
    requires unit == [] || IsToken(unit)
    ensures var line := key + ":" + pad + digits + (if unit == [] then [] else " " + unit);
      ParseLine(line) == match Scale(DigitsValue(digits), unit)
        case None => None
        case Some(v) => Some((key, v))
  {
    DigitsAreToken(digits);
    ParseU64Digits(digits);
    ParseFormattedLine(key, pad, digits, unit);
  }

  lemma ParseLineOfSplit(line: String, key: String, rest: String)
    requires SplitOnce(line, ':') == Some((key, rest))
    ensures ParseLine(line) == match ParseValue(rest)
      case None => None
      case Some(v) => Some((key, v))
  {
  }

  /** A padded value token with an optional unit reads back as the token's u64 value (0 when it
      is not one) scaled by the unit. */
  lemma ParseFormattedValue(pad: String, word: String, unit: String)
    requires AllWhitespace(pad) && IsToken(word)
    requires unit == [] || IsToken(unit)
    ensures var rest := pad + word + (if unit == [] then [] else " " + unit);
      ParseValue(rest) == Scale(ParseU64(word).GetOr(0), unit)
  {
    var rest := pad + word + (if unit == [] then [] else " " + unit);
    if unit == [] {
      assert rest == pad + word;
      ParseBareValue(pad, word);
      ParseValueNoSpace(rest);
    } else {
      assert rest == pad + word + " " + unit;
      ParseValueWithUnit(pad, word, unit);
      ParseValueSplit(rest, word, unit);
    }
  }

  lemma ParseValueNoSpace(rest: String)
    requires RSplitOnce(TrimStart(rest), ' ').None?
    ensures ParseValue(rest) == Scale(ParseU64(Trim(rest)).GetOr(0), "")
  {
    assert Trim("") == "";
  }

  lemma ParseValueSplit(rest: String, value: String, unit: String)
    requires RSplitOnce(TrimStart(rest), ' ') == Some((value, unit))
    ensures ParseValue(rest) == Scale(ParseU64(Trim(value)).GetOr(0), Trim(unit))
  {
  }

  lemma ParseBareValue(pad: String, word: String)
    requires AllWhitespace(pad) && IsToken(word)
    ensures Trim(pad + word) == word
    ensures RSplitOnce(TrimStart(pad + word), ' ').None?
  {
    TrimStartPadding(pad, word);
    assert TrimStart(pad + word) == word;
    assert IsWhitespace(' ');
    assert ' ' !in word;
    TrimToken(word);
    assert Trim(pad + word) == TrimEnd(word);
  }

  /** "value unit" after padding splits at its one inner space into exactly the value and the unit. */
  lemma ParseValueWithUnit(pad: String, word: String, unit: String)
    requires AllWhitespace(pad) && IsToken(word) && IsToken(unit)
    ensures RSplitOnce(TrimStart(pad + word + " " + unit), ' ') == Some((word, unit))
    ensures Trim(word) == word && Trim(unit) == unit
  {
    var body := word + [' '] + unit;
    TrimStartBeforeToken(pad, word, unit);
    assert IsWhitespace(' ');
    assert ' ' !in unit;
    RSplitOnceUnique(body, ' ', word, unit);
    TrimToken(word);
    TrimToken(unit);
  }

  lemma TrimStartBeforeToken(pad: String, word: String, unit: String)
    requires AllWhitespace(pad) && IsToken(word)
    ensures TrimStart(pad + word + " " + unit) == word + [' '] + unit
  {
    var body := word + [' '] + unit;
    assert pad + word + " " + unit == pad + body;
    assert body[0] == word[0];
    TrimStartPadding(pad, body);
  }

  /** The entries of the lines that parse, in order. */
  function Entries(lines: seq<String>): seq<(String, nat)> {
    FilterMap(lines, ParseLine)
  }

  /** The value of the last entry with `key`, or 0 when there is none. */
  function Lookup(entries: seq<(String, nat)>, key: String): (v: nat)
  {
    if entries == [] then 0
    else if entries[|entries| - 1].0 == key then entries[|entries| - 1].1
    else Lookup(entries[..|entries| - 1], key)
  }

  /** A later line with the same key overrides an earlier one; other keys leave it alone; a
      line that does not parse changes nothing. Stated for any line parser. */
  lemma LookupLastWins(lines: seq<String>, line: String, key: String, parse: String -> Option<(String, nat)>)
    ensures parse(line).None? ==> Lookup(FilterMap(lines + [line], parse), key) == Lookup(FilterMap(lines, parse), key)
    ensures parse(line).Some? && parse(line).value.0 == key ==>
      Lookup(FilterMap(lines + [line], parse), key) == parse(line).value.1
    ensures parse(line).Some? && parse(line).value.0 != key ==>
      Lookup(FilterMap(lines + [line], parse), key) == Lookup(FilterMap(lines, parse), key)
  {
    assert (lines + [line])[..|lines|] == lines;
    var tail := match parse(line) case Some(b) => [b] case None => [];
    assert FilterMap(lines + [line], parse) == FilterMap(lines, parse) + tail;
    if parse(line).None? {
      assert FilterMap(lines, parse) + tail == FilterMap(lines, parse);
    }
  }

  /** Lookup finds the last entry with the key. */
  lemma {:induction false} LookupIsLastEntry(entries: seq<(String, nat)>, key: String, k: nat)
    requires k < |entries| && entries[k].0 == key
    requires forall j :: k < j < |entries| ==> entries[j].0 != key
    ensures Lookup(entries, key) == entries[k].1
    decreases |entries|
  {
    if k < |entries| - 1 {
      LookupIsLastEntry(entries[..|entries| - 1], key, k);
    }
  }

  /** Lookup gives 0 for a key no entry has. */
  lemma {:induction false} LookupAbsent(entries: seq<(String, nat)>, key: String)
    requires forall j :: 0 <= j < |entries| ==> entries[j].0 != key
    ensures Lookup(entries, key) == 0
    decreases |entries|
  {
    if entries != [] {
      LookupAbsent(entries[..|entries| - 1], key);
    }
  }

  function SaturatingSub(a: nat, b: nat): nat {
    if a >= b then a - b else 0
  }

  function SwapOf(entries: seq<(String, nat)>): SwapStats {
    var total := Lookup(entries, "SwapTotal");
    var free := Lookup(entries, "SwapFree");
    SwapStats(total, SaturatingSub(total, free), free)
  }

  function RamOf(entries: seq<(String, nat)>): RamStats {
    var total := Lookup(entries, "MemTotal");
    var free := Lookup(entries, "MemFree");
    var buffers := Lookup(entries, "Buffers");
    var cache := Lookup(entries, "Cached") + Lookup(entries, "SReclaimable");
    RamStats(total, SaturatingSub(SaturatingSub(SaturatingSub(total, free), buffers), cache),
             free, Lookup(entries, "MemAvailable"), buffers, cache)
  }

  /** Used swap is what is not free, and never negative. */
  lemma SwapAccounting(entries: seq<(String, nat)>)
    ensures var s := SwapOf(entries);
      (s.free <= s.total ==> s.used + s.free == s.total) && (s.free > s.total ==> s.used == 0)
  {
  }

  /** Used RAM is the total less free, buffers and cache (cached plus reclaimable slab), or 0
      when those exceed the total. */
  lemma RamAccounting(entries: seq<(String, nat)>)
    ensures var r := RamOf(entries);
      && r.cache == Lookup(entries, "Cached") + Lookup(entries, "SReclaimable")
      && (r.free + r.buffers + r.cache <= r.total ==> r.used + r.free + r.buffers + r.cache == r.total)
      && (r.free + r.buffers + r.cache > r.total ==> r.used == 0)
  {
  }

  lemma RamOfLookups(entries: seq<(String, nat)>)
    ensures var total, free, buffers := Lookup(entries, "MemTotal"), Lookup(entries, "MemFree"), Lookup(entries, "Buffers");
      var cache := Lookup(entries, "Cached") + Lookup(entries, "SReclaimable");
      RamOf(entries) == RamStats(total, SaturatingSub(SaturatingSub(SaturatingSub(total, free), buffers), cache),
                                 free, Lookup(entries, "MemAvailable"), buffers, cache)
  {
  }

  /** `swap`: a single pass over the lines keeping the last SwapTotal and SwapFree. */
  method Swap(memInfo: IoResult<String>) returns (r: Result<SwapStats>)
    ensures memInfo.IoErr? ==> r == Err(memInfo.message)
    ensures memInfo.IoOk? ==> r == Ok(SwapOf(Entries(Lines(memInfo.value))))
  {
    if memInfo.IoErr? {
      return Err(memInfo.message);
    }
    var total, free := ScanSwap(Lines(memInfo.value));
    r := Ok(SwapStats(total, SaturatingSub(total, free), free));
  }

  method ScanSwap(lines: seq<String>) returns (total: nat, free: nat)
    ensures total == Lookup(Entries(lines), "SwapTotal") && free == Lookup(Entries(lines), "SwapFree")
  {
    total, free := 0, 0;
    for i := 0 to |lines|
      invariant total == Lookup(Entries(lines[..i]), "SwapTotal")
      invariant free == Lookup(Entries(lines[..i]), "SwapFree")
    {
      assert lines[..i + 1] == lines[..i] + [lines[i]];
      LookupLastWins(lines[..i], lines[i], "SwapTotal", ParseLine);
      LookupLastWins(lines[..i], lines[i], "SwapFree", ParseLine);
      var entry := ParseLine(lines[i]);
      if entry.Some? {
        var (key, value) := entry.value;
        if key == "SwapTotal" {
          total := value;
        } else if key == "SwapFree" {
          free := value;
        }
      }
    }
    assert lines[..|lines|] == lines;
  }

  /** `ram`: a single pass over the lines keeping the last value of each of six keys. */
  method Ram(memInfo: IoResult<String>) returns (r: Result<RamStats>)
    ensures memInfo.IoErr? ==> r == Err(memInfo.message)
    ensures memInfo.IoOk? ==> r == Ok(RamOf(Entries(Lines(memInfo.value))))
  {
    if memInfo.IoErr? {
      return Err(memInfo.message);
    }
    var lines := Lines(memInfo.value);
    var total, free, available, buffers, cached, sreclaimable := ScanRam(lines);
    var cacheTotal := cached + sreclaimable;
    var used := SaturatingSub(SaturatingSub(SaturatingSub(total, free), buffers), cacheTotal);
    ghost var entries := Entries(lines);
    assert RamStats(total, used, free, available, buffers, cacheTotal) == RamOf(entries) by {
      RamOfLookups(entries);
    }
    r := Ok(RamStats(total, used, free, available, buffers, cacheTotal));
  }

  method ScanRam(lines: seq<String>)
    returns (total: nat, free: nat, available: nat, buffers: nat, cached: nat, sreclaimable: nat)
    ensures total == Lookup(Entries(lines), "MemTotal") && free == Lookup(Entries(lines), "MemFree")
    ensures available == Lookup(Entries(lines), "MemAvailable") && buffers == Lookup(Entries(lines), "Buffers")
    ensures cached == Lookup(Entries(lines), "Cached") && sreclaimable == Lookup(Entries(lines), "SReclaimable")
  {
    total, free, available, buffers, cached, sreclaimable := 0, 0, 0, 0, 0, 0;
    for i := 0 to |lines|
      invariant total == Lookup(Entries(lines[..i]), "MemTotal")
      invariant free == Lookup(Entries(lines[..i]), "MemFree")
      invariant available == Lookup(Entries(lines[..i]), "MemAvailable")
      invariant buffers == Lookup(Entries(lines[..i]), "Buffers")
      invariant cached == Lookup(Entries(lines[..i]), "Cached")
      invariant sreclaimable == Lookup(Entries(lines[..i]), "SReclaimable")
    {
      assert lines[..i + 1] == lines[..i] + [lines[i]];
      LookupLastWins(lines[..i], lines[i], "MemTotal", ParseLine);
      LookupLastWins(lines[..i], lines[i], "MemFree", ParseLine);
      LookupLastWins(lines[..i], lines[i], "MemAvailable", ParseLine);
      LookupLastWins(lines[..i], lines[i], "Buffers", ParseLine);
      LookupLastWins(lines[..i], lines[i], "Cached", ParseLine);
      LookupLastWins(lines[..i], lines[i], "SReclaimable", ParseLine);
      var entry := ParseLine(lines[i]);
      if entry.Some? {
        var (key, value) := entry.value;
        if key == "MemTotal" {
          total := value;
        } else if key == "MemFree" {
          free := value;
        } else if key == "MemAvailable" {
          available := value;
        } else if key == "Buffers" {
          buffers := value;
        } else if key == "Cached" {
          cached := value;
        } else if key == "SReclaimable" {
          sreclaimable := value;
        }
      }
    }
    assert lines[..|lines|] == lines;
  }

  /** The unit test's figures, after the "kB" lines have been scaled by 1024. */
  lemma {:induction false} MemInfoExample()
    ensures var entries := [("MemTotal", 61489320 * 1024), ("MemFree", 44422752 * 1024),
      ("MemAvailable", 54097832 * 1024), ("Buffers", 1112 * 1024), ("Cached", 9113108 * 1024),
      ("SwapCached", 0), ("SwapTotal", 8388604 * 1024), ("SwapFree", 2097152 * 1024),
      ("SReclaimable", 266068 * 1024), ("HugePages_Total", 0)];
      && RamOf(entries) == RamStats(62965063680, 7870750720, 45488898048, 55396179968, 1138688, 9604276224)
      && SwapOf(entries) == SwapStats(8589930496, 6442446848, 2147483648)
  {
    var entries := [("MemTotal", 61489320 * 1024), ("MemFree", 44422752 * 1024),
      ("MemAvailable", 54097832 * 1024), ("Buffers", 1112 * 1024), ("Cached", 9113108 * 1024),
      ("SwapCached", 0), ("SwapTotal", 8388604 * 1024), ("SwapFree", 2097152 * 1024),
      ("SReclaimable", 266068 * 1024), ("HugePages_Total", 0)];
    LookupIsLastEntry(entries, "MemTotal", 0);
    LookupIsLastEntry(entries, "MemFree", 1);
    LookupIsLastEntry(entries, "MemAvailable", 2);
    LookupIsLastEntry(entries, "Buffers", 3);
    LookupIsLastEntry(entries, "Cached", 4);
    LookupIsLastEntry(entries, "SwapTotal", 6);
    LookupIsLastEntry(entries, "SwapFree", 7);
    LookupIsLastEntry(entries, "SReclaimable", 8);
  }
}
