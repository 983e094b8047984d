/** The Network UPS Tools client of src/datasource/nut.rs. upsd answers `LIST UPS` with one
    `UPS <name> "<description>"` line per device and `LIST VAR <ups>` with one
    `VAR <ups> <variable> "<value>"` line per variable, each list closed by an `END LIST ...`
    line. The connection is the sequence of what the successive `read_line` calls return; the end
    of the sequence is the end of the stream. */
module NutSource {
  import opened Wrappers
  import opened Text
  import opened Seqs
  import opened UpsMetrics

  /** What one `read_line` returns: a line, or a read error. */
  datatype Reply = Line(text: String) | ReadFailure(message: String)

  const END_LIST_UPS: String := "END LIST UPS"
  const END_LIST_VAR: String := "END LIST VAR"

  /** Reading a listing from `pos` with `acc` gathered so far: each line that `ends` does not
      recognise is folded into `acc` by `step`; the result is what was gathered and the position
      after the terminator (or the end of the stream), or the first read error. Both listing
      loops have this shape. */
  function Scan<S>(replies: seq<Reply>, pos: nat, acc: S, ends: String -> bool, step: (S, Reply) -> S): (r: Result<(S, nat)>)
    requires pos <= |replies|
    ensures r.Ok? ==> pos <= r.value.1 <= |replies|
    decreases |replies| - pos
  {
    if pos == |replies| then Ok((acc, pos))
    else match replies[pos]
      case ReadFailure(m) => Err(m)
      case Line(text) =>
        if ends(text) then Ok((acc, pos + 1))
        else Scan(replies, pos + 1, step(acc, replies[pos]), ends, step)
  }

  /** `acc` updated by a run of lines, in order. */
  function Fold<S>(acc: S, rs: seq<Reply>, step: (S, Reply) -> S): S {
    if rs == [] then acc else step(Fold(acc, rs[..|rs| - 1], step), rs[|rs| - 1])
  }

  /** Folding a line in front of a run applies it first. */
  lemma {:induction false} FoldCons<S>(acc: S, r: Reply, rs: seq<Reply>, step: (S, Reply) -> S)
    ensures Fold(acc, [r] + rs, step) == Fold(step(acc, r), rs, step)
    decreases |rs|
  {
    if rs == [] {
      assert ([r] + rs)[..0] == [];
    } else {
      assert ([r] + rs)[..|rs|] == [r] + rs[..|rs| - 1];
      FoldCons(acc, r, rs[..|rs| - 1], step);
    }
  }

  /** The position after a listing whose lines run up to `t`: past the terminator, if there is one. */
  function After(replies: seq<Reply>, t: nat): (next: nat)
    requires t <= |replies|
    ensures t <= next <= |replies| && (t < |replies| <==> next == t + 1)
  {
    if t < |replies| then t + 1 else t
  }

  /** Ordinary lines from `pos` up to `t`, then the terminator or the end of the stream: the
      listing gathers exactly those lines, in order, and the next read is after the terminator. */
  lemma {:induction false} ScanLines<S>(replies: seq<Reply>, pos: nat, t: nat, acc: S, ends: String -> bool, step: (S, Reply) -> S)
    requires pos <= t <= |replies|
    requires forall k :: pos <= k < t ==> replies[k].Line? && !ends(replies[k].text)
    requires t < |replies| ==> replies[t].Line? && ends(replies[t].text)
    ensures Scan(replies, pos, acc, ends, step) == Ok((Fold(acc, replies[pos..t], step), After(replies, t)))
    decreases t - pos
  {
    if pos == t {
      assert replies[pos..t] == [];
    } else {
      ScanLines(replies, pos + 1, t, step(acc, replies[pos]), ends, step);
      assert replies[pos..t] == [replies[pos]] + replies[pos + 1..t];
      FoldCons(acc, replies[pos], replies[pos + 1..t], step);
    }
  }

  /** A read error before the terminator is the listing's result. */
  lemma {:induction false} ScanReadError<S>(replies: seq<Reply>, pos: nat, t: nat, acc: S, ends: String -> bool, step: (S, Reply) -> S)
    requires pos <= t < |replies|
    requires forall k :: pos <= k < t ==> replies[k].Line? && !ends(replies[k].text)
    requires replies[t].ReadFailure?
    ensures Scan(replies, pos, acc, ends, step) == Err(replies[t].message)
    decreases t - pos
  {
    if pos < t {
      ScanReadError(replies, pos + 1, t, step(acc, replies[pos]), ends, step);
    }
  }

  /** The `LIST UPS` terminator: the trimmed line is exactly `END LIST UPS`. */
  predicate EndsUps(text: String) {
    Trim(text) == END_LIST_UPS
  }

  /** The `LIST VAR` terminator: the trimmed line starts with `END LIST VAR`. */
  predicate EndsVar(text: String) {
    StartsWith(Trim(text), END_LIST_VAR)
  }

  /** The UPS a `LIST UPS` reply line names: the second token of a line whose first token is "UPS". */
  function UpsNameOf(r: Reply): Option<String> {
    if r.ReadFailure? then None
    else
      var parts := SplitWhitespace(Trim(r.text));
      if |parts| >= 2 && parts[0] == "UPS" then Some(parts[1]) else None
  }

  /** The names found so far plus the one a reply adds. */
  function AddName(names: seq<String>, r: Reply): seq<String> {
    match UpsNameOf(r)
    case None => names
    case Some(name) => names + [name]
  }

  /** The reply to `LIST UPS` read from `start`. */
  function ListUps(replies: seq<Reply>, start: nat): (r: Result<(seq<String>, nat)>)
    requires start <= |replies|
    ensures r.Ok? ==> start <= r.value.1 <= |replies|
  {
    Scan(replies, start, [], EndsUps, AddName)
  }

  /** `list_ups_devices`. */
  method ListUpsDevices(replies: seq<Reply>, start: nat) returns (r: Result<(seq<String>, nat)>)
    requires start <= |replies|
    ensures r == ListUps(replies, start)
  {
    var names: seq<String> := [];
    var pos := start;
    while pos < |replies|
      invariant start <= pos <= |replies|
      invariant Scan(replies, pos, names, EndsUps, AddName) == ListUps(replies, start)
      decreases |replies| - pos
    {
      var reply := replies[pos];
      if reply.ReadFailure? {
        return Err(reply.message);
      }
      var trimmed := Trim(reply.text);
      if trimmed == END_LIST_UPS {
        return Ok((names, pos + 1));
      }
      var parts := SplitWhitespace(trimmed);
      if |parts| >= 2 && parts[0] == "UPS" {
        names := names + [parts[1]];
      }
      pos := pos + 1;
    }
    r := Ok((names, pos));
  }

  /** The variable and value a `LIST VAR` reply line sets: the line split at single spaces into at
      most four parts, the third being the name and the fourth, without its quotes, the value. */
  function VarOf(r: Reply): Option<(String, String)> {
    if r.ReadFailure? then None
    else
      var parts := SplitN(Trim(r.text), 4, ' ');
      if |parts| >= 4 then Some((parts[2], TrimMatches(parts[3], '"'))) else None
  }

  /** The variables so far updated by one reply line. */
  function Insert(params: map<String, String>, r: Reply): map<String, String> {
    match VarOf(r)
    case None => params
    case Some((key, value)) => params[key := value]
  }

  /** The variables a run of reply lines sets. */
  function Params(rs: seq<Reply>): map<String, String> {
    Fold(map[], rs, Insert)
  }

  /** The reply to `LIST VAR` read from `start`. */
  function ListVar(replies: seq<Reply>, start: nat): (r: Result<(map<String, String>, nat)>)
    requires start <= |replies|
    ensures r.Ok? ==> start <= r.value.1 <= |replies|
  {
    Scan(replies, start, map[], EndsVar, Insert)
  }

  /** `list_device_parameters`. */
  method ListDeviceParameters(replies: seq<Reply>, start: nat) returns (r: Result<(map<String, String>, nat)>)
    requires start <= |replies|
    ensures r == ListVar(replies, start)
  {
    var params: map<String, String> := map[];
    var pos := start;
    while pos < |replies|
      invariant start <= pos <= |replies|
      invariant Scan(replies, pos, params, EndsVar, Insert) == ListVar(replies, start)
      decreases |replies| - pos
    {
      var reply := replies[pos];
      if reply.ReadFailure? {
        return Err(reply.message);
      }
      var trimmed := Trim(reply.text);
      if StartsWith(trimmed, END_LIST_VAR) {
        return Ok((params, pos + 1));
      }
      params := Insert(params, reply);
      pos := pos + 1;
    }
    r := Ok((params, pos));
  }

  /** An ordinary line of a `LIST UPS` reply: neither a read error nor the terminator. */
  predicate UpsBody(r: Reply) {
    r.Line? && !EndsUps(r.text)
  }

  /** An ordinary line of a `LIST VAR` reply. */
  predicate VarBody(r: Reply) {
    r.Line? && !EndsVar(r.text)
  }

  /** Folding `AddName` over lines appends the names they carry, in order. */
  lemma {:induction false} FoldNames(names: seq<String>, rs: seq<Reply>)
    ensures Fold(names, rs, AddName) == names + FilterMap(rs, UpsNameOf)
    decreases |rs|
  {
    if rs != [] {
      FoldNames(names, rs[..|rs| - 1]);
    }
  }

  /** A `LIST UPS` reply reads up to its terminator: the names are those of the lines before it, in
      order, and the next reply starts right after it. Without a terminator it reads to the end of
      the stream. */
  lemma ListUpsNames(replies: seq<Reply>, start: nat, t: nat)
    requires start <= t <= |replies|
    requires forall k :: start <= k < t ==> UpsBody(replies[k])
    requires t < |replies| ==> replies[t].Line? && EndsUps(replies[t].text)
    ensures ListUps(replies, start).Ok?
    ensures ListUps(replies, start).value.0 == FilterMap(replies[start..t], UpsNameOf)
    ensures ListUps(replies, start).value.1 == After(replies, t)
  {
    ScanLines(replies, start, t, [], EndsUps, AddName);
    FoldNames([], replies[start..t]);
  }

  /** A read error inside a `LIST UPS` reply is the result. */
  lemma ListUpsReadError(replies: seq<Reply>, start: nat, t: nat)
    requires start <= t < |replies|
    requires forall k :: start <= k < t ==> UpsBody(replies[k])
    requires replies[t].ReadFailure?
    ensures ListUps(replies, start) == Err(replies[t].message)
  {
    ScanReadError(replies, start, t, [], EndsUps, AddName);
  }

  /** A `LIST VAR` reply reads up to the first line that starts with its terminator, or to the
      end of the stream; the variables are those the lines before it set. */
  lemma ListVarParams(replies: seq<Reply>, start: nat, t: nat)
    requires start <= t <= |replies|
    requires forall k :: start <= k < t ==> VarBody(replies[k])
    requires t < |replies| ==> replies[t].Line? && EndsVar(replies[t].text)
    ensures ListVar(replies, start) == Ok((Params(replies[start..t]), After(replies, t)))
  {
    ScanLines(replies, start, t, map[], EndsVar, Insert);
  }

  /** A read error inside a `LIST VAR` reply is the result. */
  lemma ListVarReadError(replies: seq<Reply>, start: nat, t: nat)
    requires start <= t < |replies|
    requires forall k :: start <= k < t ==> VarBody(replies[k])
    requires replies[t].ReadFailure?
    ensures ListVar(replies, start) == Err(replies[t].message)
  {
    ScanReadError(replies, start, t, map[], EndsVar, Insert);
  }

  /** The last line setting a variable decides its value. */
  lemma {:induction false} ParamsLastWins(rs: seq<Reply>, i: nat, key: String, value: String)
    requires i < |rs| && VarOf(rs[i]) == Some((key, value))
    requires forall j :: i < j < |rs| ==> VarOf(rs[j]).None? || VarOf(rs[j]).value.0 != key
    ensures key in Params(rs) && Params(rs)[key] == value
    decreases |rs|
  {
    FoldLastWins(map[], rs, i, key, value, VarOf, Insert);
  }

  /** The same for any update that sets the variable a line names: kept for any `varOf`, so that
      the proof never looks inside how a line is split. */
  lemma {:induction false} FoldLastWins(acc: map<String, String>, rs: seq<Reply>, i: nat, key: String, value: String,
                                        varOf: Reply -> Option<(String, String)>,
                                        step: (map<String, String>, Reply) -> map<String, String>)
    requires forall m, r :: step(m, r) == if varOf(r).Some? then m[varOf(r).value.0 := varOf(r).value.1] else m
    requires i < |rs| && varOf(rs[i]) == Some((key, value))
    requires forall j :: i < j < |rs| ==> varOf(rs[j]).None? || varOf(rs[j]).value.0 != key
    ensures key in Fold(acc, rs, step) && Fold(acc, rs, step)[key] == value
    decreases |rs|
  {
    if i < |rs| - 1 {
      var init := rs[..|rs| - 1];
      assert init[i] == rs[i];
      forall j | i < j < |init|
        ensures varOf(init[j]).None? || varOf(init[j]).value.0 != key
      {
        assert init[j] == rs[j];
      }
      FoldLastWins(acc, init, i, key, value, varOf, step);
    }
  }

  /** A variable no line sets is absent. */
  lemma {:induction false} ParamsAbsent(rs: seq<Reply>, key: String)
    requires forall j :: 0 <= j < |rs| ==> VarOf(rs[j]).None? || VarOf(rs[j]).value.0 != key
    ensures key !in Params(rs)
    decreases |rs|
  {
    if rs != [] {
      ParamsAbsent(rs[..|rs| - 1], key);
    }
  }

  /** The value of a variable: present and a number. */
  predicate Numeric(params: map<String, String>, key: String) {
    key in params && ParseF64(params[key]).Some?
  }

  /** The `find` closure: the value of the first alias, in list order, that is present and numeric. */
  function Find(params: map<String, String>, keys: seq<String>): Option<real> {
    if keys == [] then None
    else if Numeric(params, keys[0]) then ParseF64(params[keys[0]])
    else Find(params, keys[1..])
  }

  /** The first numeric alias decides; present aliases that are not numbers are passed over. */
  lemma {:induction false} FindFirstNumeric(params: map<String, String>, keys: seq<String>, i: nat)
    requires i < |keys| && Numeric(params, keys[i])
    requires forall j :: 0 <= j < i ==> !Numeric(params, keys[j])
    ensures Find(params, keys) == ParseF64(params[keys[i]])
  {
    if i > 0 {
      FindFirstNumeric(params, keys[1..], i - 1);
    }
  }

  /** With no numeric alias there is no value. */
  lemma {:induction false} FindNone(params: map<String, String>, keys: seq<String>)
    requires forall j :: 0 <= j < |keys| ==> !Numeric(params, keys[j])
    ensures Find(params, keys) == None
  {
    if keys != [] {
      FindNone(params, keys[1..]);
    }
  }

  const RUNTIME_KEYS: seq<String> := ["battery.runtime", "battery.runtime.low"]
  const BATTERY_LEVEL_KEYS: seq<String> := ["battery.charge", "battery.level", "battery.charge.approx"]
  const LOAD_KEYS: seq<String> := ["ups.load", "output.load"]
  const INPUT_VOLTAGE_KEYS: seq<String> := ["input.voltage"]
  const OUTPUT_VOLTAGE_KEYS: seq<String> := ["output.voltage"]
  const NOMINAL_APPARENT_POWER_KEYS: seq<String> := ["ups.power.nominal", "output.power.nominal"]
  const NOMINAL_REAL_POWER_KEYS: seq<String> := ["ups.realpower.nominal", "output.realpower.nominal"]
  const REAL_POWER_KEYS: seq<String> := ["ups.realpower", "output.realpower"]
  const APPARENT_POWER_KEYS: seq<String> := ["ups.power", "output.power"]

  /** upsd reports charge and load in percent; the record holds fractions. */
  function AsFraction(x: Option<real>): (r: Option<real>)
    ensures r.Some? <==> x.Some?
    ensures r.Some? ==> r.value * 100.0 == x.value
  {
    match x
    case None => None
    case Some(v) => Some(v / 100.0)
  }

  /** The power a UPS draws at a load fraction of its nominal power. */
  function Derived(nominal: real, load: real): (p: real)
    ensures nominal > 0.0 && load >= 0.0 ==> p >= 0.0
    ensures nominal > 0.0 && load <= 1.0 ==> p <= nominal
  {
    nominal * load
  }

  /** A power reading, else one derived from a positive nominal power and the load. */
  function WithFallback(reading: Option<real>, nominal: Option<real>, load: Option<real>): Option<real> {
    if reading.Some? then reading
    else if nominal.Some? && load.Some? && nominal.value > 0.0 then Some(Derived(nominal.value, load.value))
    else None
  }

  /** `collect_device_parameters`: runtime, the two voltages and the two nominal powers are the
      first numeric alias of their own lists, unscaled; the other readings are stated by
      `PercentagesAreFractions` and `PowerFallback`. */
  function CollectDeviceParameters(deviceName: String, params: map<String, String>): (u: UpsDeviceStats)
    ensures u.deviceName == deviceName
    ensures u.estimatedRuntime == Find(params, RUNTIME_KEYS)
    ensures u.inputVoltage == Find(params, INPUT_VOLTAGE_KEYS)
    ensures u.outputVoltage == Find(params, OUTPUT_VOLTAGE_KEYS)
    ensures u.nominalApparentPower == Find(params, NOMINAL_APPARENT_POWER_KEYS)
    ensures u.nominalRealPower == Find(params, NOMINAL_REAL_POWER_KEYS)
  {
    var load := AsFraction(Find(params, LOAD_KEYS));
    var nominalApparentPower := Find(params, NOMINAL_APPARENT_POWER_KEYS);
    var nominalRealPower := Find(params, NOMINAL_REAL_POWER_KEYS);
    UpsDeviceStats(
      deviceName,
      Find(params, RUNTIME_KEYS),
      AsFraction(Find(params, BATTERY_LEVEL_KEYS)),
      load,
      Find(params, INPUT_VOLTAGE_KEYS),
      Find(params, OUTPUT_VOLTAGE_KEYS),
      nominalApparentPower,
      nominalRealPower,
      WithFallback(Find(params, APPARENT_POWER_KEYS), nominalApparentPower, load),
      WithFallback(Find(params, REAL_POWER_KEYS), nominalRealPower, load))
  }

  /** Battery level and load are the reported percentages divided by 100. */
  lemma PercentagesAreFractions(deviceName: String, params: map<String, String>)
    ensures var u := CollectDeviceParameters(deviceName, params);
      (u.batteryLevel.Some? <==> Find(params, BATTERY_LEVEL_KEYS).Some?) &&
      (u.batteryLevel.Some? ==> u.batteryLevel.value * 100.0 == Find(params, BATTERY_LEVEL_KEYS).value) &&
      (u.load.Some? <==> Find(params, LOAD_KEYS).Some?) &&
      (u.load.Some? ==> u.load.value * 100.0 == Find(params, LOAD_KEYS).value)
  {
  }

  /** Real power: the reading when there is one; otherwise nominal real power times the load
      fraction when both are known and the nominal power is positive; otherwise absent. Apparent
      power follows the same rule with its own reading and nominal value. The load is the
      fraction of `PercentagesAreFractions`. */
  lemma PowerFallback(deviceName: String, params: map<String, String>)
    ensures var u := CollectDeviceParameters(deviceName, params);
      var reading, nominal := Find(params, REAL_POWER_KEYS), Find(params, NOMINAL_REAL_POWER_KEYS);
      (reading.Some? ==> u.realPower == reading) &&
      (reading.None? && nominal.Some? && u.load.Some? && nominal.value > 0.0 ==>
         u.realPower == Some(Derived(nominal.value, u.load.value))) &&
      (reading.None? && (nominal.None? || u.load.None? || nominal.value <= 0.0) ==> u.realPower.None?)
    ensures var u := CollectDeviceParameters(deviceName, params);
      var reading, nominal := Find(params, APPARENT_POWER_KEYS), Find(params, NOMINAL_APPARENT_POWER_KEYS);
      (reading.Some? ==> u.apparentPower == reading) &&
      (reading.None? && nominal.Some? && u.load.Some? && nominal.value > 0.0 ==>
         u.apparentPower == Some(Derived(nominal.value, u.load.value))) &&
      (reading.None? && (nominal.None? || u.load.None? || nominal.value <= 0.0) ==> u.apparentPower.None?)
  {
    var u := CollectDeviceParameters(deviceName, params);
    var load := AsFraction(Find(params, LOAD_KEYS));
    assert u.load == load;
    assert u.realPower == WithFallback(Find(params, REAL_POWER_KEYS), Find(params, NOMINAL_REAL_POWER_KEYS), load);
    assert u.apparentPower == WithFallback(Find(params, APPARENT_POWER_KEYS), Find(params, NOMINAL_APPARENT_POWER_KEYS), load);
  }

  /** A derived power is never negative: the nominal power is positive, so it has the load's sign. */
  lemma DerivedPowerSign(deviceName: String, params: map<String, String>)
    requires Find(params, REAL_POWER_KEYS).None?
    requires CollectDeviceParameters(deviceName, params).realPower.Some?
    requires CollectDeviceParameters(deviceName, params).load.value >= 0.0
    ensures CollectDeviceParameters(deviceName, params).realPower.value >= 0.0
  {
  }

  /** Prepends the devices already collected to what the rest of the session gives. */
  function Prepend(done: seq<UpsDeviceStats>, rest: Result<seq<UpsDeviceStats>>): Result<seq<UpsDeviceStats>> {
    match rest
    case Err(m) => Err(m)
    case Ok(ds) => Ok(done + ds)
  }

  /** One `LIST VAR` exchange per name, in order, from position `pos`; the first failing one ends
      the session with its error. */
  function Devices(replies: seq<Reply>, pos: nat, names: seq<String>): Result<seq<UpsDeviceStats>>
    requires pos <= |replies|
    decreases |names|
  {
    if names == [] then Ok([])
    else
      var listed := ListVar(replies, pos);
      if listed.Err? then Err(listed.error)
      else Prepend([CollectDeviceParameters(names[0], listed.value.0)], Devices(replies, listed.value.1, names[1..]))
  }

  /** `ups_stats` after connecting: `LIST UPS`, then `LIST VAR` for every UPS found. `now` is the
      clock after the last reply. */
  function UpsStatsOf(replies: seq<Reply>, now: int): Result<UpsStats> {
    var listed := ListUps(replies, 0);
    if listed.Err? then Err(listed.error)
    else
      var devices := Devices(replies, listed.value.1, listed.value.0);
      if devices.Err? then Err(devices.error) else Ok(UpsStats(now, devices.value))
  }

  method ReadUpsStats(replies: seq<Reply>, now: int) returns (r: Result<UpsStats>)
    ensures r == UpsStatsOf(replies, now)
  {
    var listed := ListUpsDevices(replies, 0);
    if listed.Err? {
      return Err(listed.error);
    }
    var upsDevices := listed.value.0;
    var pos: nat := listed.value.1;
    ghost var start := pos;
    var devices: seq<UpsDeviceStats> := [];
    assert upsDevices[0..] == upsDevices;
    PrependNothing(Devices(replies, pos, upsDevices));
    for k := 0 to |upsDevices|
      invariant pos <= |replies|
      invariant Prepend(devices, Devices(replies, pos, upsDevices[k..])) == Devices(replies, start, upsDevices)
    {
      var device := upsDevices[k];
      var parameters := ListDeviceParameters(replies, pos);
      DevicesStep(replies, pos, upsDevices[k..]);
      assert upsDevices[k..][1..] == upsDevices[k + 1..];
      if parameters.Err? {
        return Err(parameters.error);
      }
      var (params, next) := parameters.value;
      var deviceStats := CollectDeviceParameters(device, params);
      PrependTwice(devices, [deviceStats], Devices(replies, next, upsDevices[k + 1..]));
      devices := devices + [deviceStats];
      pos := next;
    }
    assert upsDevices[|upsDevices|..] == [];
    assert devices + [] == devices;
    r := Ok(UpsStats(now, devices));
  }

  /** The first exchange of a session: its error ends the session, its variables make the first
      record. */
  lemma DevicesStep(replies: seq<Reply>, pos: nat, names: seq<String>)
    requires pos <= |replies| && names != []
    ensures ListVar(replies, pos).Err? ==> Devices(replies, pos, names) == Err(ListVar(replies, pos).error)
    ensures ListVar(replies, pos).Ok? ==>
      Devices(replies, pos, names) ==
      Prepend([CollectDeviceParameters(names[0], ListVar(replies, pos).value.0)], Devices(replies, ListVar(replies, pos).value.1, names[1..]))
  {
  }

  lemma PrependTwice(a: seq<UpsDeviceStats>, b: seq<UpsDeviceStats>, rest: Result<seq<UpsDeviceStats>>)
    ensures Prepend(a, Prepend(b, rest)) == Prepend(a + b, rest)
  {
    if rest.Ok? {
      assert a + (b + rest.value) == a + b + rest.value;
    }
  }

  lemma PrependNothing(rest: Result<seq<UpsDeviceStats>>)
    ensures Prepend([], rest) == rest
  {
    if rest.Ok? {
      assert [] + rest.value == rest.value;
    }
  }

  /** One record per UPS found, in the order `LIST UPS` named them. */
  lemma {:induction false} DevicesFollowNames(replies: seq<Reply>, pos: nat, names: seq<String>)
    requires pos <= |replies| && Devices(replies, pos, names).Ok?
    ensures var ds := Devices(replies, pos, names).value;
      |ds| == |names| && forall k :: 0 <= k < |names| ==> ds[k].deviceName == names[k]
    decreases |names|
  {
    if names != [] {
      var (params, next) := ListVar(replies, pos).value;
      DevicesFollowNames(replies, next, names[1..]);
    }
  }

  /** A session is one record per UPS, named as listed. */
  lemma UpsStatsFollowList(replies: seq<Reply>, now: int)
    requires UpsStatsOf(replies, now).Ok?
    ensures var (names, next) := ListUps(replies, 0).value;
      var stats := UpsStatsOf(replies, now).value;
      stats.timestamp == now && |stats.devices| == |names| &&
      forall k :: 0 <= k < |names| ==> stats.devices[k].deviceName == names[k]
  {
    var (names, next) := ListUps(replies, 0).value;
    DevicesFollowNames(replies, next, names);
  }

  /** A failing exchange for any UPS fails the whole session with its error. */
  lemma {:induction false} DevicesAbortOnError(replies: seq<Reply>, pos: nat, names: seq<String>, k: nat)
    requires pos <= |replies| && k < |names|
    requires Devices(replies, pos, names[..k]).Ok?
    requires ListVar(replies, PositionAfter(replies, pos, names[..k])).Err?
    ensures Devices(replies, pos, names) == Err(ListVar(replies, PositionAfter(replies, pos, names[..k])).error)
    decreases k
  {
    if k > 0 {
      var (params, next) := ListVar(replies, pos).value;
      assert names[..k][1..] == names[1..][..k - 1];
      DevicesAbortOnError(replies, next, names[1..], k - 1);
    }
  }

  /** Where the exchanges for `names` leave the stream when they all succeed. */
  function PositionAfter(replies: seq<Reply>, pos: nat, names: seq<String>): (p: nat)
    requires pos <= |replies|
    ensures p <= |replies|
    decreases |names|
  {
    if names == [] then pos
    else
      var listed := ListVar(replies, pos);
      if listed.Err? then pos else PositionAfter(replies, listed.value.1, names[1..])
  }
}
