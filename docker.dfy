/** The Docker data source of src/datasource/docker.rs: the per-container CPU% estimate against
    the previous round's counters, the container's display name, and one polling round that
    reports every container with stats and rebuilds the baseline map from scratch. The Docker
    daemon is an input: the container listing and each container's first stats item. */
module DockerSource {
  import opened Wrappers
  import opened Text
  import opened Seqs

  /** Cumulative CPU time of the container and of the host, in the daemon's units. */
  datatype CpuStats = CpuStats(total: nat, system: nat)

  /** The part of the daemon's `ContainerCpuStats` the estimator reads. `totalUsage` stands for
      `cpu_usage.total_usage` and is None when either level is missing. */
  datatype ContainerCpuStats = ContainerCpuStats(totalUsage: Option<nat>, systemCpuUsage: Option<nat>, onlineCpus: Option<nat>)

  datatype NetworkStats = NetworkStats(rxBytes: Option<nat>, txBytes: Option<nat>)

  /** One stats item: CPU, `memory_stats.usage`, and the per-interface network counters. */
  datatype StatsResponse = StatsResponse(cpuStats: Option<ContainerCpuStats>, memoryUsage: Option<nat>, networks: Option<seq<NetworkStats>>)

  /** A listed container: its id, its names, and the first item of its one-shot stats stream
      (None when the stream ends without one). */
  datatype Container = Container(id: Option<String>, names: Option<seq<String>>, stats: Option<Result<StatsResponse>>)

  datatype ContainerStats = ContainerStats(name: String, cpuUsage: Option<real>, memUsageBytes: Option<nat>,
                                           netRxBytes: Option<nat>, netTxBytes: Option<nat>)

  /** `timestamp` is the instant the round finished, in milliseconds. */
  datatype DockerStats = DockerStats(timestamp: int, containers: seq<ContainerStats>)

  const NO_NAME: String := "n/a"

  /** `to_cpu_stats`: both counters, or nothing. */
  function ToCpuStats(s: ContainerCpuStats): (r: Option<CpuStats>)
    ensures r.Some? <==> s.totalUsage.Some? && s.systemCpuUsage.Some?
    ensures r.Some? ==> r.value.total == s.totalUsage.value && r.value.system == s.systemCpuUsage.value
  {
    if s.totalUsage.None? then None
    else if s.systemCpuUsage.None? then None
    else Some(CpuStats(s.totalUsage.value, s.systemCpuUsage.value))
  }

  /** The number of CPUs the usage is scaled to: `online_cpus`, 1 when unknown. */
  function Cpus(s: ContainerCpuStats): nat {
    s.onlineCpus.GetOr(1)
  }

  /** The container's share of host CPU time over the interval, in cores. */
  function Usage(cpuDelta: nat, sysDelta: nat, cpus: nat): (u: real)
    ensures u >= 0.0
    ensures sysDelta > 0 ==> u * (sysDelta as real) == (cpuDelta as real) * (cpus as real)
  {
    if sysDelta > 0 && cpuDelta > 0 then ((cpuDelta as real) / (sysDelta as real)) * (cpus as real) else 0.0
  }

  /** When the container used no more CPU time than the host, its usage is at most the CPU count. */
  lemma UsageBounded(cpuDelta: nat, sysDelta: nat, cpus: nat)
    requires cpuDelta <= sysDelta
    ensures Usage(cpuDelta, sysDelta, cpus) <= cpus as real
  {
    if sysDelta > 0 && cpuDelta > 0 {
      var ratio := (cpuDelta as real) / (sysDelta as real);
      assert ratio <= 1.0;
      assert ratio * (cpus as real) <= 1.0 * (cpus as real);
    }
  }

  /** Both counters moved forward since the baseline; otherwise the container has restarted. */
  predicate Advanced(previous: CpuStats, current: CpuStats) {
    current.total > previous.total && current.system > previous.system
  }

  /** `cpu_usage`: the usage estimate, if there is a sound one, and the counters to keep as
      the next baseline. */
  function CpuUsage(name: String, stats: Option<ContainerCpuStats>, prev: map<String, CpuStats>): (r: (Option<real>, Option<CpuStats>))
    ensures r.1 == if stats.None? then None else ToCpuStats(stats.value)
    ensures r.0.Some? ==> r.1.Some? && name in prev && Advanced(prev[name], r.1.value)
    ensures r.0.Some? ==> 0.0 <= r.0.value <= Cpus(stats.value) as real
    ensures r.0.Some? ==>
      (r.0.value * ((r.1.value.system - prev[name].system) as real) ==
       ((r.1.value.total - prev[name].total) as real) * (Cpus(stats.value) as real))
  {
    if stats.None? then (None, None)
    else
      var current := ToCpuStats(stats.value);
      if current.None? then (None, None)
      else if name !in prev then (None, current)
      else
        var previous := prev[name];
        if current.value.total <= previous.total || current.value.system <= previous.system then (None, current)
        else
          var cpus := Cpus(stats.value);
          var usage := Usage(current.value.total - previous.total, current.value.system - previous.system, cpus);
          if usage > cpus as real then (None, current) else (Some(usage), current)
  }

  /** A container whose counters advanced, and whose CPU time grew no faster than the host's,
      always gets an estimate. */
  lemma EstimateWhenPlausible(name: String, stats: ContainerCpuStats, prev: map<String, CpuStats>)
    requires ToCpuStats(stats).Some? && name in prev && Advanced(prev[name], ToCpuStats(stats).value)
    requires ToCpuStats(stats).value.total - prev[name].total <= ToCpuStats(stats).value.system - prev[name].system
    ensures CpuUsage(name, Some(stats), prev).0.Some?
  {
    var current, previous := ToCpuStats(stats).value, prev[name];
    UsageBounded(current.total - previous.total, current.system - previous.system, Cpus(stats));
  }

  /** The name before stripping: the first listed name, else the id, else "n/a". */
  function RawName(c: Container): String {
    if c.names.Some? && c.names.value != [] then c.names.value[0]
    else if c.id.Some? then c.id.value
    else NO_NAME
  }

  /** Stripping leading `c` removes nothing but `c`. */
  lemma {:induction false} TrimStartRemovesOnly(s: String, c: char)
    ensures forall i :: 0 <= i < |s| - |TrimStartMatches(s, c)| ==> s[i] == c
    decreases |s|
  {
    if s != [] && s[0] == c {
      TrimStartRemovesOnly(s[1..], c);
      forall i | 0 <= i < |s| - |TrimStartMatches(s, c)|
        ensures s[i] == c
      {
        if i > 0 {
          assert s[i] == s[1..][i - 1];
        }
      }
    }
  }

  /** `container_name`: the raw name without its leading slashes. */
  function ContainerName(c: Container): (name: String)
    ensures name != [] ==> name[0] != '/'
    ensures |name| <= |RawName(c)| && name == RawName(c)[|RawName(c)| - |name|..]
    ensures forall i :: 0 <= i < |RawName(c)| - |name| ==> RawName(c)[i] == '/'
  {
    TrimStartRemovesOnly(RawName(c), '/');
    TrimStartMatches(RawName(c), '/')
  }

  /** The first listed name is used, without its slash. */
  lemma FirstNameUsed()
    ensures ContainerName(Container(Some("3f2a"), Some(["/web", "/alias"]), None)) == "web"
  {
    assert RawName(Container(Some("3f2a"), Some(["/web", "/alias"]), None)) == "/web";
    SlashStripped();
  }

  lemma SlashStripped()
    ensures TrimStartMatches("/web", '/') == "web"
  {
    var s: String := "/web";
    assert s[0] == '/' && s[1..] == "web";
    assert TrimStartMatches("web", '/') == "web";
  }

  /** An empty name list falls back to the id. */
  lemma IdWhenNoNames()
    ensures ContainerName(Container(Some("3f2a"), Some([]), None)) == "3f2a"
  {
    assert RawName(Container(Some("3f2a"), Some([]), None)) == "3f2a";
    assert TrimStartMatches("3f2a", '/') == "3f2a";
  }

  /** Without names or id the container is "n/a". */
  lemma NoNameNorId()
    ensures ContainerName(Container(None, None, None)) == "n/a"
  {
    assert RawName(Container(None, None, None)) == "n/a";
    assert TrimStartMatches("n/a", '/') == "n/a";
  }

  function SumRx(nets: seq<NetworkStats>): nat {
    if nets == [] then 0 else SumRx(nets[..|nets| - 1]) + nets[|nets| - 1].rxBytes.GetOr(0)
  }

  function SumTx(nets: seq<NetworkStats>): nat {
    if nets == [] then 0 else SumTx(nets[..|nets| - 1]) + nets[|nets| - 1].txBytes.GetOr(0)
  }

  /** Whether a container is reported in a round: it has an id and its stats item came back. */
  predicate HasStats(c: Container) {
    c.id.Some? && c.stats.Some? && c.stats.value.Ok?
  }

  /** The record a container contributes to the round, measured against the old baseline. */
  function Report(c: Container, prev: map<String, CpuStats>): (r: Option<ContainerStats>)
    ensures r.Some? <==> HasStats(c)
  {
    if !HasStats(c) then None
    else
      var name, s := ContainerName(c), c.stats.value.value;
      Some(ContainerStats(name, CpuUsage(name, s.cpuStats, prev).0, s.memoryUsage,
        if s.networks.Some? then Some(SumRx(s.networks.value)) else None,
        if s.networks.Some? then Some(SumTx(s.networks.value)) else None))
  }

  /** The counters a container contributes to the next baseline. */
  function Measurement(c: Container): Option<CpuStats> {
    if !HasStats(c) || c.stats.value.value.cpuStats.None? then None
    else ToCpuStats(c.stats.value.value.cpuStats.value)
  }

  function Reports(cs: seq<Container>, prev: map<String, CpuStats>): (r: seq<ContainerStats>)
    ensures |r| <= |cs|
  {
    if cs == [] then []
    else
      var rest, last := Reports(cs[..|cs| - 1], prev), Report(cs[|cs| - 1], prev);
      if last.Some? then rest + [last.value] else rest
  }

  /** The baseline built in one round, from nothing: each measured container under its name,
      a later container of the same name overwriting an earlier one. */
  function NextBaseline(cs: seq<Container>): map<String, CpuStats> {
    if cs == [] then map[]
    else
      var m, c := NextBaseline(cs[..|cs| - 1]), cs[|cs| - 1];
      if Measurement(c).Some? then m[ContainerName(c) := Measurement(c).value] else m
  }

  /** The container was measured this round and goes by `name`. */
  predicate MeasuredAs(c: Container, name: String) {
    Measurement(c).Some? && ContainerName(c) == name
  }

  /** The baseline after a round holds exactly the containers measured in that round: a
      container that vanished or could not be measured drops out. */
  lemma {:induction false} BaselineKeys(cs: seq<Container>, name: String)
    ensures name in NextBaseline(cs) <==> exists i :: 0 <= i < |cs| && MeasuredAs(cs[i], name)
    decreases |cs|
  {
    if cs != [] {
      var init, last := cs[..|cs| - 1], cs[|cs| - 1];
      BaselineKeys(init, name);
      if MeasuredAs(last, name) {
        assert name in NextBaseline(cs);
        assert MeasuredAs(cs[|cs| - 1], name);
      } else {
        assert name in NextBaseline(cs) <==> name in NextBaseline(init);
        if exists i :: 0 <= i < |init| && MeasuredAs(init[i], name) {
          var i :| 0 <= i < |init| && MeasuredAs(init[i], name);
          assert cs[i] == init[i];
        }
        if exists i :: 0 <= i < |cs| && MeasuredAs(cs[i], name) {
          var i :| 0 <= i < |cs| && MeasuredAs(cs[i], name);
          assert cs[|cs| - 1] == last;
          assert i != |cs| - 1;
          assert init[i] == cs[i];
        }
      }
    }
  }

  /** A measured container's entry is the counters it reported in this round. */
  lemma {:induction false} BaselineHoldsLatest(cs: seq<Container>, k: nat)
    requires k < |cs| && Measurement(cs[k]).Some?
    requires forall j :: k < j < |cs| ==> Measurement(cs[j]).None? || ContainerName(cs[j]) != ContainerName(cs[k])
    ensures ContainerName(cs[k]) in NextBaseline(cs) && NextBaseline(cs)[ContainerName(cs[k])] == Measurement(cs[k]).value
    decreases |cs|
  {
    if k < |cs| - 1 {
      var init := cs[..|cs| - 1];
      assert init[k] == cs[k];
      forall j | k < j < |init|
        ensures Measurement(init[j]).None? || ContainerName(init[j]) != ContainerName(init[k])
      {
        assert init[j] == cs[j];
      }
      BaselineHoldsLatest(init, k);
    }
  }

  /** One record per container that has stats, whatever the baseline. */
  lemma {:induction false} ReportsCount(cs: seq<Container>, prev: map<String, CpuStats>)
    ensures |Reports(cs, prev)| == Count(cs, HasStats)
    decreases |cs|
  {
    if cs != [] {
      ReportsCount(cs[..|cs| - 1], prev);
    }
  }

  /** One more container: its record, if any, follows the earlier ones, and its counters, if
      any, overwrite the baseline entry of its name. */
  lemma RoundStep(cs: seq<Container>, i: nat, prev: map<String, CpuStats>)
    requires i < |cs|
    ensures Reports(cs[..i + 1], prev) ==
      Reports(cs[..i], prev) + (if Report(cs[i], prev).Some? then [Report(cs[i], prev).value] else [])
    ensures NextBaseline(cs[..i + 1]) ==
      if Measurement(cs[i]).Some? then NextBaseline(cs[..i])[ContainerName(cs[i]) := Measurement(cs[i]).value]
      else NextBaseline(cs[..i])
  {
    assert cs[..i + 1][..i] == cs[..i];
    assert cs[..i + 1][i] == cs[i];
  }

  /** `DockerClient`: the previous round's counters, by container name. */
  class DockerClient {
    var prevCpuStats: map<String, CpuStats>

    constructor()
      ensures prevCpuStats == map[]
    {
      prevCpuStats := map[];
    }

    /** `docker_stats`, given the container listing (or the error reaching the daemon). */
    method DockerStatsRound(listing: Result<seq<Container>>, now: int) returns (r: Result<DockerStats>)
      modifies this
      ensures listing.Err? ==> r == Err(listing.error) && prevCpuStats == old(prevCpuStats)
      ensures listing.Ok? ==> r == Ok(DockerStats(now, Reports(listing.value, old(prevCpuStats))))
      ensures listing.Ok? ==> prevCpuStats == NextBaseline(listing.value)
    {
      if listing.Err? {
        return Err(listing.error);
      }
      var containers := listing.value;
      var stats: seq<ContainerStats> := [];
      var current: map<String, CpuStats> := map[];
      for i := 0 to |containers|
        invariant prevCpuStats == old(prevCpuStats)
        invariant stats == Reports(containers[..i], prevCpuStats)
        invariant current == NextBaseline(containers[..i])
      {
        var c := containers[i];
        RoundStep(containers, i, prevCpuStats);
        if c.id.None? || c.stats.None? || c.stats.value.Err? {
          continue;
        }
        var name := ContainerName(c);
        var s := c.stats.value.value;
        var (cpuUsage, measurement) := CpuUsage(name, s.cpuStats, prevCpuStats);
        if measurement.Some? {
          current := current[name := measurement.value];
        }
        var rx, tx := None, None;
        if s.networks.Some? {
          rx := Some(SumRx(s.networks.value));
          tx := Some(SumTx(s.networks.value));
        }
        stats := stats + [ContainerStats(name, cpuUsage, s.memoryUsage, rx, tx)];
      }
      assert containers[..|containers|] == containers;
      prevCpuStats := current;
      return Ok(DockerStats(now, stats));
    }
  }
}
