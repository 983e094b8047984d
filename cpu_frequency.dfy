/** The per-core frequency reader of src/datasource/cpu_frequency.rs. Core k's frequency is read
    from /sys/devices/system/cpu/cpu<k>/cpufreq/scaling_cur_freq; here the reader is a function
    from the core index to what that read returns. The record is the one of src/metrics/cpu_frequency.rs. */
module CpuFrequencySource {
  import opened Wrappers
  import opened Text
  import opened Reader

  /** Cores 0 .. MAX_CORES - 1 are probed. */
  const MAX_CORES: nat := 256

  /** Frequencies in Hz, core 0 first. */
  datatype CpuFreqStats = CpuFreqStats(cores: seq<nat>)

  /** A scaling_cur_freq file holds kHz; an unparseable one reads as 0. */
  function FreqOf(content: String): nat {
    ParseU64(Trim(content)).GetOr(0) * 1000
  }

  /** Where the probe of cores 0 .. n-1 stands: still going, stopped at a missing core, or failed
      at core `core`. */
  datatype Probe = Going(freqs: seq<nat>) | Stopped(freqs: seq<nat>) | Failed(core: nat, message: String)

  /** The message of a read of core `core` that failed with `message`. */
  function ReadFailure(core: nat, message: String): String {
    "Failed to read CPU " + NatToString(core) + ": " + message
  }

  /** One more core: a read adds the frequency `freqOf` makes of its content, a missing file stops
      the probe, another failure fails it. */
  function Step(freqs: seq<nat>, core: nat, res: IoResult<String>, freqOf: String -> nat): (p: Probe)
    ensures res.IoOk? ==> p == Going(freqs + [freqOf(res.value)])
    ensures res.IoErr? && res.kind == NotFound ==> p == Stopped(freqs)
    ensures res.IoErr? && res.kind == Other ==> p == Failed(core, res.message)
  {
    match res
    case IoOk(content) => Going(freqs + [freqOf(content)])
    case IoErr(kind, m) => if kind == NotFound then Stopped(freqs) else Failed(core, m)
  }

  /** The probe after looking at cores 0 .. n-1. The conversion of a file's content is a
      parameter so that the facts about the probe hold whatever it is. */
  function ProbeCores(read: nat -> IoResult<String>, freqOf: String -> nat, n: nat): Probe {
    if n == 0 then Going([])
    else
      var p := ProbeCores(read, freqOf, n - 1);
      if p.Going? then Step(p.freqs, n - 1, read(n - 1), freqOf) else p
  }

  /** `cpy_freq`: the frequencies of the cores up to the first missing one; another read failure
      is an error, and so is finding no core at all. */
  function CpuFreq(read: nat -> IoResult<String>): Result<CpuFreqStats> {
    match ProbeCores(read, FreqOf, MAX_CORES)
    case Failed(c, m) => Err(ReadFailure(c, m))
    case Going(freqs) => if freqs == [] then Err("No CPU frequency sensors found") else Ok(CpuFreqStats(freqs))
    case Stopped(freqs) => if freqs == [] then Err("No CPU frequency sensors found") else Ok(CpuFreqStats(freqs))
  }

  method CpyFreq(read: nat -> IoResult<String>) returns (r: Result<CpuFreqStats>)
    ensures r == CpuFreq(read)
  {
    var coreFreq: seq<nat> := [];
    var core, limit := 0, MAX_CORES;
    while core < limit
      invariant limit == MAX_CORES && core <= limit
      invariant ProbeCores(read, FreqOf, core) == Going(coreFreq)
    {
      var res := read(core);
      ProbeNext(read, FreqOf, core);
      match res {
        case IoOk(content) =>
          var freq := FreqOf(content);
          coreFreq := coreFreq + [freq];
        case IoErr(kind, m) =>
          if kind == NotFound {
            StoppedStays(read, FreqOf, core + 1, MAX_CORES);
            break;
          }
          FailedStays(read, FreqOf, core + 1, MAX_CORES);
          return Err(ReadFailure(core, m));
      }
      core := core + 1;
    }
    if coreFreq == [] {
      return Err("No CPU frequency sensors found");
    }
    r := Ok(CpuFreqStats(coreFreq));
  }

  lemma ProbeNext(read: nat -> IoResult<String>, freqOf: String -> nat, n: nat)
    requires ProbeCores(read, freqOf, n).Going?
    ensures ProbeCores(read, freqOf, n + 1) == Step(ProbeCores(read, freqOf, n).freqs, n, read(n), freqOf)
  {
  }

  /** Once stopped, probing further cores changes nothing. */
  lemma {:induction false} StoppedStays(read: nat -> IoResult<String>, freqOf: String -> nat, n: nat, m: nat)
    requires n <= m && ProbeCores(read, freqOf, n).Stopped?
    ensures ProbeCores(read, freqOf, m) == ProbeCores(read, freqOf, n)
    decreases m - n
  {
    if n < m {
      StoppedStays(read, freqOf, n, m - 1);
    }
  }

  /** Once failed, probing further cores changes nothing. */
  lemma {:induction false} FailedStays(read: nat -> IoResult<String>, freqOf: String -> nat, n: nat, m: nat)
    requires n <= m && ProbeCores(read, freqOf, n).Failed?
    ensures ProbeCores(read, freqOf, m) == ProbeCores(read, freqOf, n)
    decreases m - n
  {
    if n < m {
      FailedStays(read, freqOf, n, m - 1);
    }
  }

  /** While going, the frequencies are those of cores 0 .. n-1, each read successfully. */
  lemma {:induction false} GoingReadsAll(read: nat -> IoResult<String>, freqOf: String -> nat, n: nat)
    requires ProbeCores(read, freqOf, n).Going?
    ensures |ProbeCores(read, freqOf, n).freqs| == n
    ensures forall k :: 0 <= k < n ==> read(k).IoOk? && ProbeCores(read, freqOf, n).freqs[k] == freqOf(read(k).value)
  {
    if n > 0 {
      GoingReadsAll(read, freqOf, n - 1);
    }
  }

  /** A stop at core c: cores 0 .. c-1 were read and core c was not found. */
  lemma {:induction false} StoppedAtMissing(read: nat -> IoResult<String>, freqOf: String -> nat, n: nat)
    requires ProbeCores(read, freqOf, n).Stopped?
    ensures var fs := ProbeCores(read, freqOf, n).freqs;
      |fs| < n && read(|fs|).IoErr? && read(|fs|).kind == NotFound &&
      forall k :: 0 <= k < |fs| ==> read(k).IoOk? && fs[k] == freqOf(read(k).value)
  {
    var prev := ProbeCores(read, freqOf, n - 1);
    if prev.Going? {
      GoingReadsAll(read, freqOf, n - 1);
    } else {
      StoppedAtMissing(read, freqOf, n - 1);
    }
  }

  /** Cores that all read successfully keep the probe going. */
  lemma {:induction false} ProbeOfPresentCores(read: nat -> IoResult<String>, freqOf: String -> nat, n: nat)
    requires forall k :: 0 <= k < n ==> read(k).IoOk?
    ensures ProbeCores(read, freqOf, n).Going?
  {
    if n > 0 {
      ProbeOfPresentCores(read, freqOf, n - 1);
    }
  }

  /** What `cpy_freq` returns: on success the frequencies of cores 0, 1, ... in order, at most 256
      of them, ending at the first core whose file is missing (or at core 255); each is the file's
      kHz times 1000. */
  lemma CpuFreqSuccess(read: nat -> IoResult<String>)
    requires CpuFreq(read).Ok?
    ensures var fs := CpuFreq(read).value.cores;
      0 < |fs| <= MAX_CORES &&
      (forall k :: 0 <= k < |fs| ==> read(k).IoOk? && fs[k] == FreqOf(read(k).value)) &&
      (|fs| < MAX_CORES ==> read(|fs|).IoErr? && read(|fs|).kind == NotFound)
  {
    var p := ProbeCores(read, FreqOf, MAX_CORES);
    if p.Going? {
      GoingReadsAll(read, FreqOf, MAX_CORES);
    } else {
      StoppedAtMissing(read, FreqOf, MAX_CORES);
    }
  }

  /** A first core that is missing means no sensors: an error. */
  lemma NoCoresIsError(read: nat -> IoResult<String>)
    requires read(0).IoErr? && read(0).kind == NotFound
    ensures CpuFreq(read) == Err("No CPU frequency sensors found")
  {
    StoppedStays(read, FreqOf, 1, MAX_CORES);
  }

  /** A read failing for a reason other than a missing file, after the cores before it were read,
      makes the whole call fail with that core's number. */
  lemma OtherErrorFails(read: nat -> IoResult<String>, c: nat)
    requires c < MAX_CORES && forall k :: 0 <= k < c ==> read(k).IoOk?
    requires read(c).IoErr? && read(c).kind == Other
    ensures CpuFreq(read) == Err(ReadFailure(c, read(c).message))
  {
    FailedAt(read, FreqOf, c);
  }

  lemma FailedAt(read: nat -> IoResult<String>, freqOf: String -> nat, c: nat)
    requires c < MAX_CORES && forall k :: 0 <= k < c ==> read(k).IoOk?
    requires read(c).IoErr? && read(c).kind == Other
    ensures ProbeCores(read, freqOf, MAX_CORES) == Failed(c, read(c).message)
  {
    ProbeOfPresentCores(read, freqOf, c);
    ProbeNext(read, freqOf, c);
    FailedStays(read, freqOf, c + 1, MAX_CORES);
  }

  /** Conversely, cores 0 .. n-1 that all read, followed by a missing core n, give exactly their
      n frequencies. */
  lemma CpuFreqOfPresentCores(read: nat -> IoResult<String>, n: nat)
    requires 0 < n < MAX_CORES && forall k :: 0 <= k < n ==> read(k).IoOk?
    requires read(n).IoErr? && read(n).kind == NotFound
    ensures CpuFreq(read).Ok? && |CpuFreq(read).value.cores| == n
    ensures forall k :: 0 <= k < n ==> CpuFreq(read).value.cores[k] == FreqOf(read(k).value)
  {
    ProbeOfPresentCores(read, FreqOf, n);
    GoingReadsAll(read, FreqOf, n);
    StoppedStays(read, FreqOf, n + 1, MAX_CORES);
  }

  /** Four cores that read as decimal kHz values, then a missing fifth, give those values times
      1000, in core order. */
  lemma FourCores(read: nat -> IoResult<String>, khz: seq<nat>)
    requires |khz| == 4 && forall k :: 0 <= k < 4 ==> khz[k] < U64_LIMIT && read(k) == IoOk(NatToString(khz[k]))
    requires read(4).IoErr? && read(4).kind == NotFound
    ensures CpuFreq(read) == Ok(CpuFreqStats([1000 * khz[0], 1000 * khz[1], 1000 * khz[2], 1000 * khz[3]]))
  {
    CpuFreqOfPresentCores(read, 4);
    var fs, want := CpuFreq(read).value.cores, [1000 * khz[0], 1000 * khz[1], 1000 * khz[2], 1000 * khz[3]];
    forall k | 0 <= k < 4 ensures fs[k] == want[k] {
      KhzFile(khz[k]);
      assert k == 0 || k == 1 || k == 2 || k == 3;
    }
    assert fs == want;
  }

  /** The sample machine: cores at 1100980, 883485, 4203950 and 5100362 kHz. */
  lemma FourCoresExample(read: nat -> IoResult<String>)
    requires read(0) == IoOk(NatToString(1100980)) && read(1) == IoOk(NatToString(883485))
    requires read(2) == IoOk(NatToString(4203950)) && read(3) == IoOk(NatToString(5100362))
    requires read(4).IoErr? && read(4).kind == NotFound
    ensures CpuFreq(read) == Ok(CpuFreqStats([1100980000, 883485000, 4203950000, 5100362000]))
  {
    var khz := [1100980, 883485, 4203950, 5100362];
    forall k | 0 <= k < 4 ensures khz[k] < U64_LIMIT && read(k) == IoOk(NatToString(khz[k])) {
      assert k == 0 || k == 1 || k == 2 || k == 3;
    }
    FourCores(read, khz);
  }

  lemma KhzFile(khz: nat)
    requires khz < U64_LIMIT
    ensures FreqOf(NatToString(khz)) == 1000 * khz
  {
    DigitsAreToken(NatToString(khz));
    TrimToken(NatToString(khz));
    ParseU64OfNatToString(khz);
  }
}
