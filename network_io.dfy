/** The /proc/net/dev reader of src/datasource/network_io.rs. After two header lines, each line
    is "<interface>: <8 receive counters> <8 transmit counters>". */
module NetworkIoSource {
  import opened Wrappers
  import opened Text
  import opened Seqs
  import opened Reader
  import opened NetworkIoMetrics

  const PATH_NET_DEV: String := "/proc/net/dev"

  /** The counters after the ':': received bytes and packets are fields 0 and 1, sent bytes and
      packets fields 8 and 9 (the six receive columns between them are skipped); a missing or
      unparseable field reads as 0. */
  function InterfaceOf(name: String, stats: String): (r: InterfaceStats)
    ensures r.interface == Trim(name)
    ensures var t := SplitWhitespace(stats);
      r.bytesReceived == ParsedOrZero(t, 0) && r.packetsReceived == ParsedOrZero(t, 1) &&
      r.bytesSent == ParsedOrZero(t, 8) && r.packetsSent == ParsedOrZero(t, 9)
  {
    var t := SplitWhitespace(stats);
    InterfaceStats(Trim(name), ParsedOrZero(t, 8), ParsedOrZero(t, 0), ParsedOrZero(t, 9), ParsedOrZero(t, 1))
  }

  /** One body line: skipped when blank or without a ':'; otherwise the interface named by the
      text before the first ':'. */
  function NetLine(line: String): (r: Option<InterfaceStats>)
    ensures Trim(line) == [] ==> r.None?
    ensures Trim(line) != [] ==> (r.Some? <==> ':' in Trim(line))
  {
    var l := Trim(line);
    if l == [] then None
    else match SplitOnce(l, ':')
      case None => None
      case Some((iface, stats)) => Some(InterfaceOf(iface, stats))
  }

  /** The interfaces of a net/dev file, one per accepted body line, in line order. */
  function Interfaces(lines: seq<String>): seq<InterfaceStats> {
    FilterMap(Body(lines), NetLine)
  }

  /** `network_io`, given what reading /proc/net/dev returned and the clock after the read. */
  method NetworkIo(read: IoResult<String>, now: int) returns (r: Result<NetworkIoStats>)
    ensures read.IoErr? ==> r == Err(read.message)
    ensures read.IoOk? ==> r == Ok(NetworkIoStats(now, Interfaces(Lines(read.value))))
  {
    if read.IoErr? {
      return Err(read.message);
    }
    var interfaces := ScanNetDev(Lines(read.value));
    r := Ok(NetworkIoStats(now, interfaces));
  }

  method ScanNetDev(lines: seq<String>) returns (interfaces: seq<InterfaceStats>)
    ensures interfaces == Interfaces(lines)
  {
    var body := Body(lines);
    interfaces := [];
    for i := 0 to |body|
      invariant interfaces == FilterMap(body[..i], NetLine)
    {
      FilterMapSnoc(body, i, NetLine);
      var line := Trim(body[i]);
      if line == [] {
        continue;
      }
      var split := SplitOnce(line, ':');
      if split.None? {
        continue;
      }
      var (iface, stats) := split.value;
      var t := SplitWhitespace(stats);
      var bytesReceived := ParsedOrZero(t, 0);
      var packetsReceived := ParsedOrZero(t, 1);
      var bytesSent := ParsedOrZero(t, 8);
      var packetsSent := ParsedOrZero(t, 9);
      interfaces := interfaces + [InterfaceStats(Trim(iface), bytesSent, bytesReceived, packetsSent, packetsReceived)];
    }
    assert body[..|body|] == body;
  }

  /** The two header lines never yield an interface, whatever they hold. */
  lemma HeadersSkipped(h1: String, h2: String, lines: seq<String>)
    ensures Interfaces([h1, h2] + lines) == FilterMap(lines, NetLine)
  {
    assert ([h1, h2] + lines)[2..] == lines;
  }

  /** Output order is input order: the interfaces of two stretches of body are those of each, one
      after the other. */
  lemma InterfacesAppend(h1: String, h2: String, a: seq<String>, b: seq<String>)
    ensures Interfaces([h1, h2] + a + b) == FilterMap(a, NetLine) + FilterMap(b, NetLine)
  {
    HeadersSkipped(h1, h2, a + b);
    assert [h1, h2] + a + b == [h1, h2] + (a + b);
    FilterMapAppend(a, b, NetLine);
  }

  /** A line without a ':' is skipped. */
  lemma NoColonSkipped(line: String)
    requires ':' !in line
    ensures NetLine(line).None?
  {
    var a := TrimStart(line);
    var b := TrimEnd(a);
    assert forall k :: 0 <= k < |b| ==> b[k] == line[|line| - |a| + k];
  }

  /** A net/dev line written out: optional leading padding, the interface name and a ':', then
      the received bytes and packets, six other receive columns, the sent bytes and packets and
      the remaining transmit columns. */
  function NetDevLine(pad: String, name: String, bytesReceived: nat, packetsReceived: nat, rxOther: seq<String>,
                      bytesSent: nat, packetsSent: nat, txOther: seq<String>): String {
    pad + (name + ": " + Unwords(NetDevFields(bytesReceived, packetsReceived, rxOther, bytesSent, packetsSent, txOther)))
  }

  function NetDevFields(bytesReceived: nat, packetsReceived: nat, rxOther: seq<String>,
                        bytesSent: nat, packetsSent: nat, txOther: seq<String>): seq<String> {
    [NatToString(bytesReceived), NatToString(packetsReceived)] + rxOther +
    [NatToString(bytesSent), NatToString(packetsSent)] + txOther
  }

  /** Parsing a written-out line gives back the interface name and its four counters. */
  lemma NetDevLineRoundTrip(pad: String, name: String, bytesReceived: nat, packetsReceived: nat, rxOther: seq<String>,
                            bytesSent: nat, packetsSent: nat, txOther: seq<String>)
    requires AllWhitespace(pad) && IsToken(name) && ':' !in name
    requires |rxOther| == 6 && forall k :: 0 <= k < 6 ==> IsToken(rxOther[k])
    requires forall k :: 0 <= k < |txOther| ==> IsToken(txOther[k])
    requires bytesReceived < U64_LIMIT && packetsReceived < U64_LIMIT && bytesSent < U64_LIMIT && packetsSent < U64_LIMIT
    ensures NetLine(NetDevLine(pad, name, bytesReceived, packetsReceived, rxOther, bytesSent, packetsSent, txOther))
      == Some(InterfaceStats(name, bytesSent, bytesReceived, packetsSent, packetsReceived))
  {
    var fields := NetDevFields(bytesReceived, packetsReceived, rxOther, bytesSent, packetsSent, txOther);
    FieldsAreTokens(bytesReceived, packetsReceived, rxOther, bytesSent, packetsSent, txOther);
    var u := Unwords(fields);
    UnwordsEnd(fields);
    var last := fields[|fields| - 1];
    assert !IsWhitespace(LastChar(last));
    SplitWhitespaceSkip(" ", u);
    SplitUnwords(fields);
    NetLineOfParts(pad, name, u);
    CountersOfFields(bytesReceived, packetsReceived, rxOther, bytesSent, packetsSent, txOther);
  }

  /** A padded "<name>: <counters>" line is the interface `name` with those counters. */
  lemma NetLineOfParts(pad: String, name: String, u: String)
    requires AllWhitespace(pad) && IsToken(name) && ':' !in name
    requires u != [] && !IsWhitespace(u[|u| - 1])
    ensures NetLine(pad + (name + ": " + u)) == Some(InterfaceOf(name, " " + u))
  {
    var p := name + ": ";
    var line := pad + (name + ": " + u);
    LineShape(name, u);
    TrimFramed(pad, p, u);
    SplitOnceUnique(p + u, ':', name, " " + u);
    NetLineOfSplit(line, name, " " + u);
  }

  lemma LineShape(name: String, u: String)
    requires name != []
    ensures (name + ": ")[0] == name[0]
    ensures name + ": " + u == name + [':'] + (" " + u)
  {
  }

  lemma NetLineOfSplit(line: String, iface: String, stats: String)
    requires SplitOnce(Trim(line), ':') == Some((iface, stats))
    ensures NetLine(line) == Some(InterfaceOf(iface, stats))
  {
  }

  lemma FieldsAreTokens(bytesReceived: nat, packetsReceived: nat, rxOther: seq<String>,
                        bytesSent: nat, packetsSent: nat, txOther: seq<String>)
    requires |rxOther| == 6 && forall k :: 0 <= k < 6 ==> IsToken(rxOther[k])
    requires forall k :: 0 <= k < |txOther| ==> IsToken(txOther[k])
    ensures var fields := NetDevFields(bytesReceived, packetsReceived, rxOther, bytesSent, packetsSent, txOther);
      |fields| >= 10 && forall k :: 0 <= k < |fields| ==> IsToken(fields[k])
  {
    var fields := NetDevFields(bytesReceived, packetsReceived, rxOther, bytesSent, packetsSent, txOther);
    DigitsAreToken(NatToString(bytesReceived));
    DigitsAreToken(NatToString(packetsReceived));
    DigitsAreToken(NatToString(bytesSent));
    DigitsAreToken(NatToString(packetsSent));
    forall k | 0 <= k < |fields| ensures IsToken(fields[k]) {
      if 2 <= k < 8 {
        assert fields[k] == rxOther[k - 2];
      } else if k >= 10 {
        assert fields[k] == txOther[k - 10];
      }
    }
  }

  lemma TrimFramed(pad: String, p: String, u: String)
    requires AllWhitespace(pad) && p != [] && !IsWhitespace(p[0])
    requires u != [] && !IsWhitespace(u[|u| - 1])
    ensures Trim(pad + (p + u)) == p + u
  {
    var x := p + u;
    TrimStartPadding(pad, x);
    assert x[|x| - 1] == u[|u| - 1];
    TrimEndKeeps(x);
  }

  lemma CountersOfFields(bytesReceived: nat, packetsReceived: nat, rxOther: seq<String>,
                         bytesSent: nat, packetsSent: nat, txOther: seq<String>)
    requires |rxOther| == 6
    requires bytesReceived < U64_LIMIT && packetsReceived < U64_LIMIT && bytesSent < U64_LIMIT && packetsSent < U64_LIMIT
    ensures var t := NetDevFields(bytesReceived, packetsReceived, rxOther, bytesSent, packetsSent, txOther);
      ParsedOrZero(t, 0) == bytesReceived && ParsedOrZero(t, 1) == packetsReceived &&
      ParsedOrZero(t, 8) == bytesSent && ParsedOrZero(t, 9) == packetsSent
  {
    ParseU64OfNatToString(bytesReceived);
    ParseU64OfNatToString(packetsReceived);
    ParseU64OfNatToString(bytesSent);
    ParseU64OfNatToString(packetsSent);
  }

  /** The enp1s0 line of the sample: 23258276045 bytes and 17679116 packets received,
      56878436846 bytes and 2548501 packets sent. */
  lemma Enp1s0Example()
    ensures NetLine(NetDevLine("", "enp1s0", 23258276045, 17679116, ["0", "11185", "0", "0", "0", "56575"],
                               56878436846, 2548501, ["0", "0", "0", "0", "0", "0"]))
      == Some(InterfaceStats("enp1s0", 56878436846, 23258276045, 2548501, 17679116))
  {
    SampleTokens();
    NetDevLineRoundTrip("", "enp1s0", 23258276045, 17679116, ["0", "11185", "0", "0", "0", "56575"],
                        56878436846, 2548501, ["0", "0", "0", "0", "0", "0"]);
  }

  lemma SampleTokens()
    ensures IsToken("enp1s0") && ':' !in "enp1s0"
    ensures IsToken("0") && IsToken("11185") && IsToken("56575")
    ensures AllWhitespace("")
  {
  }
  const ZEROS: seq<String> := ["0", "0", "0", "0", "0", "0"]

  /** The three interface lines of the net/dev sample, lo and enp1s0 with their counters and
      wlp2s0 with none. */
  const LO_LINE: String := NetDevLine("    ", "lo", 5467426526, 298140, ZEROS, 5467426526, 298140, ZEROS)
  const ENP1S0_LINE: String :=
    NetDevLine("", "enp1s0", 23258276045, 17679116, ["0", "11185", "0", "0", "0", "56575"], 56878436846, 2548501, ZEROS)
  const WLP2S0_LINE: String := NetDevLine("", "wlp2s0", 0, 0, ZEROS, 0, 0, ZEROS)

  /** The net/dev sample, whatever its two header lines: lo, enp1s0 and wlp2s0, in file order,
      with the counters the unit test expects. */
  lemma NetDevFixture(header1: String, header2: String)
    ensures Interfaces([header1, header2, LO_LINE, ENP1S0_LINE, WLP2S0_LINE]) ==
      [InterfaceStats("lo", 5467426526, 5467426526, 298140, 298140),
       InterfaceStats("enp1s0", 56878436846, 23258276045, 2548501, 17679116),
       InterfaceStats("wlp2s0", 0, 0, 0, 0)]
  {
    FixtureTokens();
    NetDevLineRoundTrip("    ", "lo", 5467426526, 298140, ZEROS, 5467426526, 298140, ZEROS);
    Enp1s0Example();
    NetDevLineRoundTrip("", "wlp2s0", 0, 0, ZEROS, 0, 0, ZEROS);
    BodyOfThreeLines(header1, header2, LO_LINE, ENP1S0_LINE, WLP2S0_LINE, NetLine);
  }

  /** Three accepted body lines after two header lines are kept, in order. */
  lemma BodyOfThreeLines<B>(header1: String, header2: String, a: String, b: String, c: String, f: String -> Option<B>)
    requires f(a).Some? && f(b).Some? && f(c).Some?
    ensures FilterMap(Body([header1, header2, a, b, c]), f) == [f(a).value, f(b).value, f(c).value]
  {
    assert Body([header1, header2, a, b, c]) == [a, b, c];
    assert [a][..0] == [];
    assert FilterMap([a], f) == [f(a).value];
    assert [a, b][..1] == [a];
    assert FilterMap([a, b], f) == [f(a).value, f(b).value];
    assert [a, b, c][..2] == [a, b];
  }

  lemma FixtureTokens()
    ensures IsToken("lo") && ':' !in "lo" && IsToken("wlp2s0") && ':' !in "wlp2s0"
    ensures AllWhitespace("    ") && AllWhitespace("")
    ensures |ZEROS| == 6 && forall k :: 0 <= k < |ZEROS| ==> IsToken(ZEROS[k])
  {
  }
}
