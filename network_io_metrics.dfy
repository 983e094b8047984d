/** The network I/O collector of src/metrics/network_io.rs: the records the data source fills,
    the watch/ignore selection of interfaces, the stored snapshot and the exposed counters. */
module NetworkIoMetrics {
  import opened Wrappers
  import opened Text
  import opened Seqs
  import opened MetricsUtil

  /** With a watch list only the listed interfaces are collected; otherwise an ignore list
      excludes the listed ones. */
  datatype Config = Config(enabled: bool, watchInterfaces: Option<seq<String>>, ignoreInterfaces: Option<seq<String>>)

  /** `Config::default`. */
  const DEFAULT_CONFIG: Config := Config(true, Some(["bond0", "tailscale1"]), None)

  datatype InterfaceStats = InterfaceStats(interface: String, bytesSent: nat, bytesReceived: nat, packetsSent: nat, packetsReceived: nat)

  /** `timestamp` is the instant the data source read the counters, in milliseconds. */
  datatype NetworkIoStats = NetworkIoStats(timestamp: int, interfaces: seq<InterfaceStats>)

  const BYTES_SENT: Desc := Desc("system_network_transmit_bytes_total", "Total bytes sent", ["device"])
  const BYTES_RECEIVED: Desc := Desc("system_network_receive_bytes_total", "Total bytes received", ["device"])
  const PACKETS_SENT: Desc := Desc("system_network_transmit_packets_total", "Total packets sent", ["device"])
  const PACKETS_RECEIVED: Desc := Desc("system_network_receive_packets_total", "Total packets received", ["device"])

  /** `Metrics::desc`. */
  const DESCS: seq<Desc> := [BYTES_SENT, BYTES_RECEIVED, PACKETS_SENT, PACKETS_RECEIVED]

  /** `should_collect`. */
  predicate ShouldCollect(config: Config, name: String) {
    match config.watchInterfaces
    case Some(watch) => name in watch
    case None =>
      match config.ignoreInterfaces
      case Some(ignore) => name !in ignore
      case None => true
  }

  /** A watch list alone decides; the ignore list is then never consulted. */
  lemma WatchListDecides(config: Config, name: String, ignore: Option<seq<String>>)
    requires config.watchInterfaces.Some?
    ensures ShouldCollect(config, name) <==> name in config.watchInterfaces.value
    ensures ShouldCollect(config.(ignoreInterfaces := ignore), name) == ShouldCollect(config, name)
  {
  }

  /** Without a watch list, a name is collected iff no ignore list names it. */
  lemma IgnoreListDecides(config: Config, name: String)
    requires config.watchInterfaces.None?
    ensures ShouldCollect(config, name) <==> config.ignoreInterfaces.None? || name !in config.ignoreInterfaces.value
  {
  }

  /** The default configuration collects exactly bond0 and tailscale1. */
  lemma DefaultWatchesBondAndTailscale(name: String)
    ensures ShouldCollect(DEFAULT_CONFIG, name) <==> name == "bond0" || name == "tailscale1"
    ensures DEFAULT_CONFIG.enabled && DEFAULT_CONFIG.ignoreInterfaces.None?
  {
  }

  /** The retain predicate of `collect`, on interface records. */
  function Selected(config: Config): InterfaceStats -> bool {
    (i: InterfaceStats) => ShouldCollect(config, i.interface)
  }

  /** The stats after `retain(should_collect)`. */
  function Retained(config: Config, stats: NetworkIoStats): (r: NetworkIoStats)
    ensures r.timestamp == stats.timestamp
  {
    stats.(interfaces := Filter(stats.interfaces, Selected(config)))
  }

  /** The retained interfaces are exactly the accepted ones. */
  lemma RetainedKeepsAccepted(config: Config, stats: NetworkIoStats, i: InterfaceStats)
    ensures i in Retained(config, stats).interfaces <==> i in stats.interfaces && ShouldCollect(config, i.interface)
  {
    FilterComplete(stats.interfaces, Selected(config), i);
  }

  /** `interfaces.retain(...)`: one pass that keeps the accepted interfaces in order. */
  method Retain(config: Config, interfaces: seq<InterfaceStats>) returns (kept: seq<InterfaceStats>)
    ensures kept == Filter(interfaces, Selected(config))
  {
    kept := [];
    for k := 0 to |interfaces|
      invariant kept == Filter(interfaces[..k], Selected(config))
    {
      assert interfaces[..k + 1][..k] == interfaces[..k];
      if ShouldCollect(config, interfaces[k].interface) {
        kept := kept + [interfaces[k]];
      }
    }
    assert interfaces[..|interfaces|] == interfaces;
  }

  function Timestamp(stats: NetworkIoStats): int {
    stats.timestamp
  }

  /** `NetworkIoCollector`: the configuration and the snapshot shared with the exposition side. */
  class NetworkIoCollector {
    const config: Config
    var measurement: Option<NetworkIoStats>

    constructor(config: Config)
      ensures this.config == config && measurement == None
    {
      this.config := config;
      measurement := None;
    }

    /** `collect`, given what the data source returned. A failure is logged and `collect` still
        succeeds; fresh stats, filtered, replace the store if it is empty or they are newer. */
    method Collect(source: Result<NetworkIoStats>) returns (r: Result<()>)
      modifies this
      ensures r == Ok(())
      ensures source.Ok? ==> measurement == UpdateIfNewer(old(measurement), Retained(config, source.value), Timestamp)
    {
      if source.Ok? {
        var stats := source.value;
        var kept := Retain(config, stats.interfaces);
        stats := stats.(interfaces := kept);
        measurement := UpdateIfNewer(measurement, stats, Timestamp);
      }
      r := Ok(());
    }
  }

  /** The four counters of one interface, in descriptor order. */
  function InterfaceFamilies(i: InterfaceStats): (r: seq<MetricFamily>)
    ensures |r| == 4
    ensures forall j :: 0 <= j < 4 ==>
      r[j].kind == COUNTER && r[j].name == DESCS[j].fqName &&
      |r[j].metrics| == 1 && r[j].metrics[0].labels == [LabelPair("device", i.interface)]
    ensures r[0].metrics[0].value == i.bytesSent as real && r[1].metrics[0].value == i.bytesReceived as real
    ensures r[2].metrics[0].value == i.packetsSent as real && r[3].metrics[0].value == i.packetsReceived as real
  {
    var l := IntoLabels([("device", i.interface)]);
    assert l == [LabelPair("device", i.interface)];
    [Counter(BYTES_SENT, l, i.bytesSent as real), Counter(BYTES_RECEIVED, l, i.bytesReceived as real),
     Counter(PACKETS_SENT, l, i.packetsSent as real), Counter(PACKETS_RECEIVED, l, i.packetsReceived as real)]
  }

  /** What `Metrics::collect` exposes for a list of interfaces. */
  function NetworkFamilies(interfaces: seq<InterfaceStats>): seq<MetricFamily> {
    if interfaces == [] then []
    else NetworkFamilies(interfaces[..|interfaces| - 1]) + InterfaceFamilies(interfaces[|interfaces| - 1])
  }

  lemma {:induction false} NetworkFamiliesLength(interfaces: seq<InterfaceStats>)
    ensures |NetworkFamilies(interfaces)| == 4 * |interfaces|
    decreases |interfaces|
  {
    if interfaces != [] {
      NetworkFamiliesLength(interfaces[..|interfaces| - 1]);
    }
  }

  /** Four counters per interface: family 4i+j is descriptor j's counter for interface i. */
  lemma {:induction false} NetworkFamilyAt(interfaces: seq<InterfaceStats>, i: nat, j: nat)
    requires i < |interfaces| && j < 4
    ensures |NetworkFamilies(interfaces)| == 4 * |interfaces|
    ensures NetworkFamilies(interfaces)[4 * i + j] == InterfaceFamilies(interfaces[i])[j]
    decreases |interfaces|
  {
    var init := interfaces[..|interfaces| - 1];
    var pre, last := NetworkFamilies(init), InterfaceFamilies(interfaces[|interfaces| - 1]);
    assert NetworkFamilies(interfaces) == pre + last;
    NetworkFamiliesLength(init);
    if i < |init| {
      NetworkFamilyAt(init, i, j);
      assert init[i] == interfaces[i];
      assert (pre + last)[4 * i + j] == pre[4 * i + j];
    } else {
      assert (pre + last)[4 * i + j] == last[j];
    }
  }

  /** `Metrics::collect`: nothing without a snapshot, else four counters per stored interface. */
  method CollectFamilies(state: Option<NetworkIoStats>) returns (mf: seq<MetricFamily>)
    ensures state.None? ==> mf == []
    ensures state.Some? ==> mf == NetworkFamilies(state.value.interfaces)
  {
    if state.None? {
      return [];
    }
    var interfaces := state.value.interfaces;
    mf := [];
    for k := 0 to |interfaces|
      invariant mf == NetworkFamilies(interfaces[..k])
    {
      assert interfaces[..k + 1][..k] == interfaces[..k];
      var device := interfaces[k];
      var l := IntoLabels([("device", device.interface)]);
      mf := MaybeCounter(mf, BYTES_SENT, l, Some(device.bytesSent as real));
      mf := MaybeCounter(mf, BYTES_RECEIVED, l, Some(device.bytesReceived as real));
      mf := MaybeCounter(mf, PACKETS_SENT, l, Some(device.packetsSent as real));
      mf := MaybeCounter(mf, PACKETS_RECEIVED, l, Some(device.packetsReceived as real));
    }
    assert interfaces[..|interfaces|] == interfaces;
  }
}
