/** CPU time accounting from /proc/stat (src/datasource/cpu_usage.rs): the row parser, the
    per-row usage computation and the stateful sampler that keeps the previous reading as its
    baseline. The result records (CoreStats, CoreUsageStats, CpuUsageStats) are those of
    src/metrics/cpu_usage.rs, which is not part of this model otherwise. */
module CpuUsageSource {
  import opened Wrappers
  import opened Text
  import opened Seqs
  import opened Reader

  const PATH_PROC_STAT: String := "/proc/stat"
  /** Milliseconds that must separate the baseline and the current reading. */
  const MIN_TIME_BETWEEN_MEASUREMENTS: nat := 250
  /** user, nice, system, idle, iowait, irq, softirq, steal, guest, guest_nice. */
  const CPU_STATS_COUNT: nat := 10
  /** guest and guest_nice are already counted in user and nice, so the total is the first 8. */
  const CPU_TOTAL_COLUMNS: nat := 8

  datatype CoreStats = CoreStats(
    user: real, nice: real, system: real, idle: real, iowait: real,
    irq: real, softirq: real, steal: real, guest: real, guest_nice: real)

  /** `CoreStats::default()`. */
  const ZERO_STATS := CoreStats(0.0, 0.0, 0.0, 0.0, 0.0, 0.0, 0.0, 0.0, 0.0, 0.0)

  datatype CoreUsageStats = CoreUsageStats(core: nat, total_usage: real, breakdown: CoreStats)

  datatype CpuUsageStats = CpuUsageStats(total_usage: real, total_breakdown: CoreStats, cores: seq<CoreUsageStats>)

  // ---------------------------------------------------------------------------------------------
  // Parsing

  predicate IsCpuLine(line: String) {
    StartsWith(line, "cpu")
  }

  /** The counters of one `cpu` row: the tokens after the first, at most ten of them, each
      that is missing or not a u64 giving 0. */
  function RowOfTokens(tokens: seq<String>): (row: seq<nat>)
    ensures |row| == CPU_STATS_COUNT
    ensures forall j :: 0 <= j < CPU_STATS_COUNT ==>
      && (j + 1 < |tokens| && ParseU64(tokens[j + 1]).Some? ==> row[j] == ParseU64(tokens[j + 1]).value)
      && (j + 1 >= |tokens| || ParseU64(tokens[j + 1]).None? ==> row[j] == 0)
  {
    seq(CPU_STATS_COUNT, j requires 0 <= j < CPU_STATS_COUNT => ParsedOrZero(tokens, j + 1))
  }

  function ParseRow(line: String): (row: seq<nat>)
    ensures |row| == CPU_STATS_COUNT
  {
    RowOfTokens(SplitWhitespace(line))
  }

  predicate AllRows(rows: seq<seq<nat>>) {
    forall k :: 0 <= k < |rows| ==> |rows[k]| == CPU_STATS_COUNT
  }

  /** The rows of the lines that start with "cpu", in input order. */
  function ProcStatRows(lines: seq<String>): (rows: seq<seq<nat>>)
    ensures AllRows(rows)
    ensures |rows| == Count(lines, IsCpuLine)
  {
    if lines == [] then []
    else ProcStatRows(lines[..|lines| - 1]) + (if IsCpuLine(lines[|lines| - 1]) then [ParseRow(lines[|lines| - 1])] else [])
  }

  /** `parse_proc_stat`. */
  function ParseProcStat(content: String): (rows: seq<seq<nat>>)
    ensures AllRows(rows)
  {
    ProcStatRows(Lines(content))
  }

  /** Parsing a concatenation of line lists parses each list on its own: a row appears only for a
      "cpu" line, and rows come out in the order of their lines. */
  lemma {:induction false} ProcStatRowsAppend(a: seq<String>, b: seq<String>)
    ensures ProcStatRows(a + b) == ProcStatRows(a) + ProcStatRows(b)
    decreases |b|
  {
    if b == [] {
      assert a + b == a;
    } else {
      assert (a + b)[..|a + b| - 1] == a + b[..|b| - 1];
      ProcStatRowsAppend(a, b[..|b| - 1]);
    }
  }

  /** The shape of the unit test's input: three "cpu" rows and the `intr` and `ctxt` lines give
      exactly the three rows, in order. */
  lemma ProcStatTestShape(total: String, cpu0: String, cpu1: String)
    requires IsCpuLine(total) && IsCpuLine(cpu0) && IsCpuLine(cpu1)
    ensures ProcStatRows([total, cpu0, cpu1, "intr 123456 789", "ctxt 987654"])
      == [ParseRow(total), ParseRow(cpu0), ParseRow(cpu1)]
  {
    var lines := [total, cpu0, cpu1, "intr 123456 789", "ctxt 987654"];
    assert !IsCpuLine("intr 123456 789") by { assert "intr 123456 789"[0] == 'i'; }
    assert !IsCpuLine("ctxt 987654") by { assert "ctxt 987654"[1] == 't'; }
    assert ProcStatRows([total]) == [ParseRow(total)] by { assert [total][..0] == []; }
    assert ProcStatRows([total, cpu0]) == [ParseRow(total), ParseRow(cpu0)] by { assert [total, cpu0][..1] == [total]; }
    assert ProcStatRows([total, cpu0, cpu1]) == [ParseRow(total), ParseRow(cpu0), ParseRow(cpu1)]
      by { assert [total, cpu0, cpu1][..2] == [total, cpu0]; }
    assert ProcStatRows(lines[..4]) == [ParseRow(total), ParseRow(cpu0), ParseRow(cpu1)]
      by { assert lines[..4][..3] == [total, cpu0, cpu1]; }
    assert lines[..5][..4] == lines[..4];
  }

  /** A row of the unit test, token by token. */
  lemma RowOfTokensExample()
    ensures RowOfTokens(["cpu1", "500", "100", "150"]) == [500, 100, 150, 0, 0, 0, 0, 0, 0, 0]
  {
    ThreeDigits("500", 500);
    ThreeDigits("100", 100);
    ThreeDigits("150", 150);
  }

  lemma ThreeDigits(s: String, v: nat)
    requires |s| == 3 && AllDigits(s)
    requires v == (s[0] as int - '0' as int) * 100 + (s[1] as int - '0' as int) * 10 + (s[2] as int - '0' as int)
    ensures ParseU64(s) == Some(v)
  {
    assert s[..2][..1] == s[..1];
    assert s[..|s| - 1] == s[..2];
    assert DigitsValue(s[..1]) == s[0] as int - '0' as int by { assert s[..1][..0] == []; }
    assert DigitsValue(s[..2]) == DigitsValue(s[..1]) * 10 + (s[1] as int - '0' as int);
    assert DigitsValue(s) == DigitsValue(s[..2]) * 10 + (s[2] as int - '0' as int);
  }

  // ---------------------------------------------------------------------------------------------
  // Usage of one row

  /** `u64::saturating_sub`. */
  function SaturatingSub(a: nat, b: nat): nat {
    if a >= b then a - b else 0
  }

  function Deltas(curr: seq<nat>, prev: seq<nat>): (d: seq<nat>)
    requires |curr| == CPU_STATS_COUNT && |prev| == CPU_STATS_COUNT
    ensures |d| == CPU_STATS_COUNT
  {
    seq(CPU_STATS_COUNT, k requires 0 <= k < CPU_STATS_COUNT => SaturatingSub(curr[k], prev[k]))
  }

  /** The sum of the first CPU_TOTAL_COLUMNS deltas. */
  function TotalDelta(d: seq<nat>): nat
    requires |d| == CPU_STATS_COUNT
  {
    d[0] + d[1] + d[2] + d[3] + d[4] + d[5] + d[6] + d[7]
  }

  function Ratios(d: seq<nat>, t: nat): CoreStats
    requires |d| == CPU_STATS_COUNT && t > 0
  {
    var t := t as real;
    CoreStats(d[0] as real / t, d[1] as real / t, d[2] as real / t, d[3] as real / t, d[4] as real / t,
              d[5] as real / t, d[6] as real / t, d[7] as real / t, d[8] as real / t, d[9] as real / t)
  }

  /** The busy share and the per-column shares between a previous and a current row. */
  function Usage(curr: seq<nat>, prev: seq<nat>): (r: (real, CoreStats))
    requires |curr| == CPU_STATS_COUNT && |prev| == CPU_STATS_COUNT
  {
    var d := Deltas(curr, prev);
    var t := TotalDelta(d);
    if t == 0 then (0.0, ZERO_STATS)
    else
      var times := Ratios(d, t);
      var busy := 1.0 - times.idle - times.iowait;
      (if busy > 0.0 then busy else 0.0, times)
  }

  /** `calculate_usage`: fills the delta array in a loop, then divides by the total. */
  method CalculateUsage(curr: seq<nat>, prev: seq<nat>) returns (usage: real, times: CoreStats)
    requires |curr| == CPU_STATS_COUNT && |prev| == CPU_STATS_COUNT
    ensures (usage, times) == Usage(curr, prev)
  {
    var deltas := new nat[CPU_STATS_COUNT];
    for i := 0 to CPU_STATS_COUNT
      invariant forall k :: 0 <= k < i ==> deltas[k] == SaturatingSub(curr[k], prev[k])
    {
      deltas[i] := if curr[i] >= prev[i] then curr[i] - prev[i] else 0;
    }
    assert deltas[..] == Deltas(curr, prev);
    var total := TotalDelta(deltas[..]);
    if total == 0 {
      return 0.0, ZERO_STATS;
    }
    var t := total as real;
    times := CoreStats(deltas[0] as real / t, deltas[1] as real / t, deltas[2] as real / t, deltas[3] as real / t,
                       deltas[4] as real / t, deltas[5] as real / t, deltas[6] as real / t, deltas[7] as real / t,
                       deltas[8] as real / t, deltas[9] as real / t);
    var busy := 1.0 - times.idle - times.iowait;
    usage := if busy > 0.0 then busy else 0.0;
  }

  /** Usage never goes below 0 or above 1, and the breakdown shares are never negative. */
  lemma UsageBounds(curr: seq<nat>, prev: seq<nat>)
    requires |curr| == CPU_STATS_COUNT && |prev| == CPU_STATS_COUNT
    ensures 0.0 <= Usage(curr, prev).0 <= 1.0
    ensures var s := Usage(curr, prev).1;
      s.user >= 0.0 && s.nice >= 0.0 && s.system >= 0.0 && s.idle >= 0.0 && s.iowait >= 0.0 &&
      s.irq >= 0.0 && s.softirq >= 0.0 && s.steal >= 0.0 && s.guest >= 0.0 && s.guest_nice >= 0.0
  {
    var d := Deltas(curr, prev);
    var t := TotalDelta(d);
    if t > 0 {
      BusyIsNonIdleShare(curr, prev);
      var s := Ratios(d, t);
      forall k | 0 <= k < CPU_STATS_COUNT ensures d[k] as real / t as real >= 0.0 {
        DivNonneg(d[k] as real, t as real);
      }
    }
  }

  lemma DivNonneg(a: real, t: real)
    requires a >= 0.0 && t > 0.0
    ensures a / t >= 0.0
  {
  }

  lemma DivAdd(a: real, b: real, t: real)
    requires t > 0.0
    ensures a / t + b / t == (a + b) / t
  {
  }

  /** With no time elapsed in the first eight columns, usage and every share are 0. */
  lemma ZeroTotalGivesZero(curr: seq<nat>, prev: seq<nat>)
    requires |curr| == CPU_STATS_COUNT && |prev| == CPU_STATS_COUNT
    requires TotalDelta(Deltas(curr, prev)) == 0
    ensures Usage(curr, prev) == (0.0, ZERO_STATS)
  {
  }

  /** The eight accounted shares of a nonzero total add up to 1. */
  lemma {:induction false} AccountedSharesSumToOne(d: seq<nat>)
    requires |d| == CPU_STATS_COUNT && TotalDelta(d) > 0
    ensures var s := Ratios(d, TotalDelta(d));
      s.user + s.nice + s.system + s.idle + s.iowait + s.irq + s.softirq + s.steal == 1.0
  {
    var t := TotalDelta(d);
    SharesOfTotal(d[0] as real, d[1] as real, d[2] as real, d[3] as real, d[4] as real, d[5] as real, d[6] as real, d[7] as real, t as real);
  }

  lemma SharesOfTotal(a: real, b: real, c: real, e: real, f: real, g: real, h: real, i: real, t: real)
    requires t > 0.0 && a + b + c + e + f + g + h + i == t
    ensures a / t + b / t + c / t + e / t + f / t + g / t + h / t + i / t == 1.0
  {
    calc {
      a / t + b / t + c / t + e / t + f / t + g / t + h / t + i / t;
      { DivAdd(a, b, t); }
      (a + b) / t + c / t + e / t + f / t + g / t + h / t + i / t;
      { DivAdd(a + b, c, t); }
      (a + b + c) / t + e / t + f / t + g / t + h / t + i / t;
      { DivAdd(a + b + c, e, t); }
      (a + b + c + e) / t + f / t + g / t + h / t + i / t;
      { DivAdd(a + b + c + e, f, t); }
      (a + b + c + e + f) / t + g / t + h / t + i / t;
      { DivAdd(a + b + c + e + f, g, t); }
      (a + b + c + e + f + g) / t + h / t + i / t;
      { DivAdd(a + b + c + e + f + g, h, t); }
      (a + b + c + e + f + g + h) / t + i / t;
      { DivAdd(a + b + c + e + f + g + h, i, t); }
      t / t;
      1.0;
    }
  }

  /** Hence busy = 1 - idle - iowait is the share of the six other accounted columns, and the
      clamp at 0 never applies. */
  lemma {:induction false} BusyIsNonIdleShare(curr: seq<nat>, prev: seq<nat>)
    requires |curr| == CPU_STATS_COUNT && |prev| == CPU_STATS_COUNT
    requires TotalDelta(Deltas(curr, prev)) > 0
    ensures var s := Usage(curr, prev).1;
      Usage(curr, prev).0 == s.user + s.nice + s.system + s.irq + s.softirq + s.steal
  {
    var d := Deltas(curr, prev);
    var s := Ratios(d, TotalDelta(d));
    AccountedSharesSumToOne(d);
    forall k | 0 <= k < CPU_STATS_COUNT ensures d[k] as real / TotalDelta(d) as real >= 0.0 {
      DivNonneg(d[k] as real, TotalDelta(d) as real);
    }
    assert 1.0 - s.idle - s.iowait == s.user + s.nice + s.system + s.irq + s.softirq + s.steal;
    assert Usage(curr, prev) == (1.0 - s.idle - s.iowait, s);
  }

  /** guest and guest_nice do not enter the divisor: changing only those columns leaves the
      total, the accounted shares and the usage as they were. */
  lemma GuestColumnsOutsideDivisor(curr: seq<nat>, curr': seq<nat>, prev: seq<nat>)
    requires |curr| == CPU_STATS_COUNT && |curr'| == CPU_STATS_COUNT && |prev| == CPU_STATS_COUNT
    requires curr[..CPU_TOTAL_COLUMNS] == curr'[..CPU_TOTAL_COLUMNS]
    ensures TotalDelta(Deltas(curr, prev)) == TotalDelta(Deltas(curr', prev))
    ensures Usage(curr, prev).0 == Usage(curr', prev).0
  {
    forall k | 0 <= k < CPU_TOTAL_COLUMNS ensures curr[k] == curr'[k] {
      assert curr[k] == curr[..CPU_TOTAL_COLUMNS][k];
    }
  }

  /** prev [0,0,0,100,0,...], curr [20,0,10,160,10,0,...]: usage 0.3, user 0.2, system 0.1,
      idle 0.6, iowait 0.1. */
  lemma StandardUsageExample()
    ensures var (u, s) := Usage([20, 0, 10, 160, 10, 0, 0, 0, 0, 0], [0, 0, 0, 100, 0, 0, 0, 0, 0, 0]);
      u == 0.3 && s.user == 0.2 && s.system == 0.1 && s.idle == 0.6 && s.iowait == 0.1
  {
    var d := Deltas([20, 0, 10, 160, 10, 0, 0, 0, 0, 0], [0, 0, 0, 100, 0, 0, 0, 0, 0, 0]);
    assert d == [20, 0, 10, 60, 10, 0, 0, 0, 0, 0];
  }

  /** Counters that went backwards give no negative delta: prev [200]*10, curr [100]*10 give 0. */
  lemma SaturatingExample()
    ensures Usage([100, 100, 100, 100, 100, 100, 100, 100, 100, 100], [200, 200, 200, 200, 200, 200, 200, 200, 200, 200]).0 == 0.0
  {
    var d := Deltas([100, 100, 100, 100, 100, 100, 100, 100, 100, 100], [200, 200, 200, 200, 200, 200, 200, 200, 200, 200]);
    assert d == [0, 0, 0, 0, 0, 0, 0, 0, 0, 0];
  }

  /** Deltas 10..100: the divisor is 360 (first eight only), guest gets 90/360 and usage 0.75. */
  lemma AllColumnsExample()
    ensures var (u, s) := Usage([110, 120, 130, 140, 150, 160, 170, 180, 190, 200], [100, 100, 100, 100, 100, 100, 100, 100, 100, 100]);
      u == 0.75 && s.user == 10.0 / 360.0 && s.guest == 90.0 / 360.0 && s.guest_nice == 100.0 / 360.0
  {
    var d := Deltas([110, 120, 130, 140, 150, 160, 170, 180, 190, 200], [100, 100, 100, 100, 100, 100, 100, 100, 100, 100]);
    assert d == [10, 20, 30, 40, 50, 60, 70, 80, 90, 100];
  }

  // ---------------------------------------------------------------------------------------------
  // Whole readings

  /** One CoreUsageStats per row after the first, numbered from 0. */
  function CoreUsages(prev: seq<seq<nat>>, curr: seq<seq<nat>>): (cores: seq<CoreUsageStats>)
    requires AllRows(prev) && AllRows(curr) && |prev| == |curr| >= 1
    ensures |cores| == |curr| - 1
  {
    seq(|curr| - 1, k requires 0 <= k < |curr| - 1 =>
      var u := Usage(curr[k + 1], prev[k + 1]); CoreUsageStats(k, u.0, u.1))
  }

  /** What the source does with two readings: an outcome is a returned value or a panic. */
  datatype Outcome<T> = Returned(result: Result<T>) | Panicked

  /** The comparison of two readings as the source writes it: a changed row count is an
      error, and otherwise row 0 is indexed unchecked. */
  function MeasureAsWritten(prev: seq<seq<nat>>, curr: seq<seq<nat>>): Outcome<CpuUsageStats>
    requires AllRows(prev) && AllRows(curr)
  {
    if |prev| != |curr| then Returned(Err("changed core count"))
    else if |curr| == 0 then Panicked
    else
      var u := Usage(curr[0], prev[0]);
      Returned(Ok(CpuUsageStats(u.0, u.1, CoreUsages(prev, curr))))
  }

  /** Two readings of a /proc/stat without any "cpu" line make the source index an empty vector. */
  lemma EmptyReadingsPanic()
    ensures MeasureAsWritten([], []) == Panicked
  {
  }

  /** The comparison of two readings, with an error instead of the panic when neither has rows. */
  function Measure(prev: seq<seq<nat>>, curr: seq<seq<nat>>): (r: Result<CpuUsageStats>)
    requires AllRows(prev) && AllRows(curr)
    ensures r.Ok? <==> |prev| == |curr| && |curr| > 0
    ensures r.Ok? ==> (r.value.total_usage, r.value.total_breakdown) == Usage(curr[0], prev[0])
    ensures r.Ok? ==> |r.value.cores| == |curr| - 1
    ensures r.Ok? ==> forall k :: 0 <= k < |r.value.cores| ==>
      r.value.cores[k].core == k && (r.value.cores[k].total_usage, r.value.cores[k].breakdown) == Usage(curr[k + 1], prev[k + 1])
  {
    if |prev| != |curr| then Err("changed core count")
    else if |curr| == 0 then Err("no cpu rows in /proc/stat")
    else
      var u := Usage(curr[0], prev[0]);
      Ok(CpuUsageStats(u.0, u.1, CoreUsages(prev, curr)))
  }

  /** The corrected comparison never panics and agrees with the source wherever the source returns. */
  lemma MeasureAgreesWhereSourceReturns(prev: seq<seq<nat>>, curr: seq<seq<nat>>)
    requires AllRows(prev) && AllRows(curr)
    ensures MeasureAsWritten(prev, curr).Returned? <==> !(|prev| == |curr| == 0)
    ensures MeasureAsWritten(prev, curr).Returned? ==> MeasureAsWritten(prev, curr).result == Measure(prev, curr)
  {
  }

  /** The unit test's readings A -> B: 50 user and 50 idle jiffies give usage 0.5 and one core. */
  lemma DatasourceFirstCallExample()
    ensures var r := Measure([[0, 0, 0, 100, 0, 0, 0, 0, 0, 0], [0, 0, 0, 100, 0, 0, 0, 0, 0, 0]],
                             [[50, 0, 0, 150, 0, 0, 0, 0, 0, 0], [50, 0, 0, 150, 0, 0, 0, 0, 0, 0]]);
      r.Ok? && r.value.total_usage == 0.5 && r.value.total_breakdown.user == 0.5 && |r.value.cores| == 1
  {
    assert Deltas([50, 0, 0, 150, 0, 0, 0, 0, 0, 0], [0, 0, 0, 100, 0, 0, 0, 0, 0, 0]) == [50, 0, 0, 50, 0, 0, 0, 0, 0, 0];
  }

  /** The unit test's readings B -> C: 80 system and 20 idle jiffies give usage 0.8, all of it
      system time. */
  lemma DatasourceSecondCallExample()
    ensures var r := Measure([[50, 0, 0, 150, 0, 0, 0, 0, 0, 0], [50, 0, 0, 150, 0, 0, 0, 0, 0, 0]],
                             [[50, 0, 80, 170, 0, 0, 0, 0, 0, 0], [50, 0, 80, 170, 0, 0, 0, 0, 0, 0]]);
      r.Ok? && r.value.total_usage == 0.8 && r.value.total_breakdown.system == 0.8 &&
      r.value.total_breakdown.user == 0.0 && |r.value.cores| == 1
  {
    assert Deltas([50, 0, 80, 170, 0, 0, 0, 0, 0, 0], [50, 0, 0, 150, 0, 0, 0, 0, 0, 0]) == [0, 0, 80, 20, 0, 0, 0, 0, 0, 0];
  }

  // ---------------------------------------------------------------------------------------------
  // The sampler

  /** The baseline: when it was taken (milliseconds) and its rows. */
  datatype Baseline = Baseline(timestamp: int, rows: seq<seq<nat>>)

  /** When the current reading is taken by a call starting at `clock`: if less than the minimum
      interval has elapsed since the baseline, the call first waits for the remainder. Elapsed
      time is 0 for a baseline in the future, as `Instant::elapsed` saturates. */
  function ReadingTime(baseline: int, clock: int): (t: int)
    ensures t >= clock
    ensures clock >= baseline ==> t >= baseline + MIN_TIME_BETWEEN_MEASUREMENTS
    ensures clock >= baseline + MIN_TIME_BETWEEN_MEASUREMENTS ==> t == clock
  {
    var elapsed := if clock >= baseline then clock - baseline else 0;
    if elapsed < MIN_TIME_BETWEEN_MEASUREMENTS then clock + (MIN_TIME_BETWEEN_MEASUREMENTS - elapsed) else clock
  }

  /** The reader's queues after `n` successful reads of `path`. */
  function Advance(data: map<String, Queue>, path: String, n: nat): map<String, Queue> {
    if n == 0 || path !in data then data
    else data[path := Queue(data[path].cursor + n, data[path].responses)]
  }

  /** One call of the sampler on a given baseline and reader state: its result, the baseline
      afterwards and how many responses it consumed. */
  function Sample(m: Option<Baseline>, data: map<String, Queue>, clock: int): (Result<CpuUsageStats>, Option<Baseline>, nat)
  {
    match m
    case None =>
      (match Peek(data, PATH_PROC_STAT, 0)
       case IoErr(_, msg) => (Err(msg), m, 0)
       case IoOk(seed) => Continue(m, Baseline(clock, ParseProcStat(seed)), Peek(data, PATH_PROC_STAT, 1), clock, 1))
    case Some(base) => Continue(m, base, Peek(data, PATH_PROC_STAT, 0), clock, 0)
  }

  function Continue(m: Option<Baseline>, base: Baseline, read: IoResult<String>, clock: int, consumed: nat)
    : (Result<CpuUsageStats>, Option<Baseline>, nat)
  {
    match read
    case IoErr(_, msg) => (Err(msg), m, consumed)
    case IoOk(text) =>
      var curr := ParseProcStat(text);
      if AllRows(base.rows) then
        var r := Measure(base.rows, curr);
        (r, if r.Ok? then Some(Baseline(ReadingTime(base.timestamp, clock), curr)) else m, consumed + 1)
      else (Err("malformed baseline"), m, consumed + 1)
  }

  /** A changed row count is an error and the baseline stays as it was. */
  lemma CoreCountChangeKeepsBaseline(m: Option<Baseline>, data: map<String, Queue>, clock: int)
    requires m.Some? && AllRows(m.value.rows)
    requires Peek(data, PATH_PROC_STAT, 0).IoOk?
    requires |ParseProcStat(Peek(data, PATH_PROC_STAT, 0).value)| != |m.value.rows|
    ensures Sample(m, data, clock).0.Err? && Sample(m, data, clock).1 == m
  {
  }

  /** On success the baseline becomes the current reading, taken at least the minimum interval
      after the previous baseline; on failure the baseline is unchanged. */
  lemma SampleAdvancesBaselineOnlyOnSuccess(m: Option<Baseline>, data: map<String, Queue>, clock: int)
    requires m.Some? ==> AllRows(m.value.rows) && clock >= m.value.timestamp
    ensures var (r, m', _) := Sample(m, data, clock);
      && (r.Err? ==> m' == m)
      && (r.Ok? ==> m'.Some? && m'.value.rows == ParseProcStat(Peek(data, PATH_PROC_STAT, if m.None? then 1 else 0).value))
      && (r.Ok? && m.Some? ==> m'.value.timestamp >= m.value.timestamp + MIN_TIME_BETWEEN_MEASUREMENTS)
  {
  }

  /** Three scripted readings a, b, c and no baseline: the first call compares a with b, the
      second compares b with c, consuming all three responses. */
  lemma {:induction false} SecondCallMeasuresAgainstFirstReading(a: String, b: String, c: String, t0: int, t1: int)
    requires Measure(ParseProcStat(a), ParseProcStat(b)).Ok?
    ensures var data := map[PATH_PROC_STAT := Queue(0, [a, b, c])];
      var (r1, m1, n1) := Sample(None, data, t0);
      var (r2, m2, n2) := Sample(m1, Advance(data, PATH_PROC_STAT, n1), t1);
      r1 == Measure(ParseProcStat(a), ParseProcStat(b))
      && r2 == Measure(ParseProcStat(b), ParseProcStat(c))
      && n1 + n2 == 3
  {
    var data := map[PATH_PROC_STAT := Queue(0, [a, b, c])];
    assert Peek(data, PATH_PROC_STAT, 0) == IoOk(a);
    assert Peek(data, PATH_PROC_STAT, 1) == IoOk(b);
    var data' := Advance(data, PATH_PROC_STAT, 2);
    assert data' == map[PATH_PROC_STAT := Queue(2, [a, b, c])];
    assert Peek(data', PATH_PROC_STAT, 0) == IoOk(c);
  }

  /** The comparison step of `cpu_usage`: the row-count check, row 0 as the total and one
      CoreUsageStats per further row, each computed by `CalculateUsage`. */
  method MeasureReadings(previous: seq<seq<nat>>, current: seq<seq<nat>>) returns (r: Result<CpuUsageStats>)
    requires AllRows(previous) && AllRows(current)
    ensures r == Measure(previous, current)
  {
    if |previous| != |current| {
      return Err("changed core count");
    }
    if |current| == 0 {
      return Err("no cpu rows in /proc/stat");
    }
    var totalUsage, totalBreakdown := CalculateUsage(current[0], previous[0]);
    var cores: seq<CoreUsageStats> := [];
    for k := 1 to |current|
      invariant |cores| == k - 1
      invariant forall j :: 0 <= j < k - 1 ==> cores[j] == CoreUsages(previous, current)[j]
    {
      var usage, breakdown := CalculateUsage(current[k], previous[k]);
      cores := cores + [CoreUsageStats(k - 1, usage, breakdown)];
    }
    assert cores == CoreUsages(previous, current);
    r := Ok(CpuUsageStats(totalUsage, totalBreakdown, cores));
  }

  /** `CpuUsage`: the data source that owns the baseline and reads /proc/stat through `reader`. */
  class CpuSampler {
    const reader: HardcodedReader
    var measurement: Option<Baseline>

    constructor (reader: HardcodedReader)
      ensures this.reader == reader && measurement == None
    {
      this.reader := reader;
      measurement := None;
    }

    /** `cpu_usage`: seeds the baseline on the first call, waits out the minimum interval, reads
        the current counters, and stores them as the new baseline only when the comparison
        succeeded. */
    method CpuUsage(clock: int) returns (r: Result<CpuUsageStats>)
      requires measurement.Some? ==> AllRows(measurement.value.rows)
      modifies this, reader
      ensures measurement.Some? ==> AllRows(measurement.value.rows)
      ensures var (res, m, consumed) := Sample(old(measurement), old(reader.data), clock);
        r == res && measurement == m && reader.data == Advance(old(reader.data), PATH_PROC_STAT, consumed)
    {
      ghost var data0 := reader.data;
      ghost var consumed: nat := 0;
      var base: Baseline;
      if measurement.Some? {
        assert AllRows(measurement.value.rows);
        base := measurement.value;
      } else {
        var seed := reader.ReadToString(PATH_PROC_STAT);
        if seed.IoErr? {
          return Err(seed.message);
        }
        base := Baseline(clock, ParseProcStat(seed.value));
        PeekAfterRead(data0, PATH_PROC_STAT, 0);
        consumed := 1;
      }
      assert reader.data == Advance(data0, PATH_PROC_STAT, consumed);
      assert Sample(old(measurement), data0, clock)
        == Continue(old(measurement), base, Peek(reader.data, PATH_PROC_STAT, 0), clock, consumed);
      var now := ReadingTime(base.timestamp, clock);
      var read := reader.ReadToString(PATH_PROC_STAT);
      if read.IoErr? {
        return Err(read.message);
      }
      consumed := consumed + 1;
      assert reader.data == Advance(data0, PATH_PROC_STAT, consumed);
      var current := ParseProcStat(read.value);
      r := MeasureReadings(base.rows, current);
      if r.Ok? {
        measurement := Some(Baseline(now, current));
      }
    }
  }
}
