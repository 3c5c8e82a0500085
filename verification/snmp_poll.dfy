/**
 * The simulated SNMP poll cycle. `pollSNMP` fabricates a sample for one
 * device from its address and a handful of random draws; the HTTP handler
 * walks the device table, appends one stats row per device and rewrites
 * the bandwidth and health tag of every link that touches the device.
 *
 * The random draws, the store's failures and the device-fetch error are
 * parameters; the tables are sequences held by a `Store` object.
 */
module SnmpPoll {
  import opened Topology

  // ---------------------------------------------------------------------------
  // random(min, max)
  // ---------------------------------------------------------------------------

  /** `Math.floor(r * (max - min + 1)) + min` for a draw `r`: an integer in [min, max]. */
  function Random(min: int, max: int, r: real): (n: int)
    requires min <= max && InUnit(r)
    ensures min <= n <= max
  {
    var width := (max - min + 1) as real;
    assert 0.0 <= r * width < width by {
      assert r * width < 1.0 * width;
    }
    (r * width).Floor + min
  }

  // ---------------------------------------------------------------------------
  // The seed: parseInt of the text after the last '.'
  // ---------------------------------------------------------------------------

  /** `ip.split('.').pop()`: the text after the last '.', or all of `ip` when it has none. */
  function LastSegment(ip: string): (seg: string)
    ensures '.' !in seg
    ensures |seg| <= |ip| && ip[|ip| - |seg|..] == seg
    ensures |seg| < |ip| ==> ip[|ip| - |seg| - 1] == '.'
  {
    if ip == [] || ip[|ip| - 1] == '.' then []
    else
      var rest := LastSegment(ip[..|ip| - 1]);
      LastSegmentStep(ip, rest);
      rest + [ip[|ip| - 1]]
  }

  /** Ending in a non-dot character extends the last segment of what precedes it by that character. */
  lemma LastSegmentStep(ip: string, rest: string)
    requires ip != [] && ip[|ip| - 1] != '.' && '.' !in rest
    requires |rest| <= |ip| - 1 && ip[..|ip| - 1][|ip| - 1 - |rest|..] == rest
    requires |rest| < |ip| - 1 ==> ip[|ip| - |rest| - 2] == '.'
    ensures '.' !in rest + [ip[|ip| - 1]]
    ensures ip[|ip| - |rest| - 1..] == rest + [ip[|ip| - 1]]
  {
    var init := ip[..|ip| - 1];
    var last := ip[|ip| - 1];
    assert forall ch :: ch in rest + [last] ==> ch in rest || ch == last;
    assert ip == init + [last];
    SuffixOfSnoc(init, last, |init| - |rest|);
  }

  /** The suffix of `s + [x]` from `n` on is the suffix of `s` followed by `x`. */
  lemma SuffixOfSnoc<T>(s: seq<T>, x: T, n: nat)
    requires n <= |s|
    ensures (s + [x])[n..] == s[n..] + [x]
  {
    assert forall i :: 0 <= i < |s| - n ==> (s + [x])[n..][i] == s[n..][i];
  }

  /** The longest prefix of `s` made of decimal digits. */
  function DigitPrefix(s: string): (p: string)
    ensures |p| <= |s| && p == s[..|p|]
    ensures forall i :: 0 <= i < |p| ==> IsDigit(p[i])
    ensures |p| < |s| ==> !IsDigit(s[|p|])
  {
    if s != [] && IsDigit(s[0]) then [s[0]] + DigitPrefix(s[1..]) else []
  }

  /** The value of a decimal digit character. */
  function DigitValue(ch: char): (d: nat)
    requires IsDigit(ch)
    ensures d < 10
  {
    assert ch as int >= '0' as int;
    (ch as int) - ('0' as int)
  }

  /** The value of a string of decimal digits, read left to right. */
  function DigitsValue(ds: string): nat
    requires forall i :: 0 <= i < |ds| ==> IsDigit(ds[i])
  {
    if ds == [] then 0
    else DigitsValue(ds[..|ds| - 1]) * 10 + DigitValue(ds[|ds| - 1])
  }

  /**
   * `parseInt(s)` with no radix: an optional sign, then the leading decimal
   * digits; `None` stands for NaN (no digit after the sign).
   */
  function ParseInt(s: string): (r: Option<int>)
    ensures s == [] || (s[0] != '-' && s[0] != '+' && !IsDigit(s[0])) ==> r.None?
    ensures s != [] && IsDigit(s[0]) ==> r.Some? && r.value >= 0
    ensures s != [] && s[0] == '-' && r.Some? ==> r.value <= 0
  {
    var negative := |s| > 0 && s[0] == '-';
    var body := if |s| > 0 && (s[0] == '-' || s[0] == '+') then s[1..] else s;
    var ds := DigitPrefix(body);
    var value: int := DigitsValue(ds);
    if ds == [] then None
    else if negative then Some(-value)
    else Some(value)
  }

  lemma {:induction false} DigitPrefixStops(ds: string, rest: string)
    requires forall i :: 0 <= i < |ds| ==> IsDigit(ds[i])
    requires rest == [] || !IsDigit(rest[0])
    ensures DigitPrefix(ds + rest) == ds
  {
    if ds != [] {
      assert (ds + rest)[0] == ds[0];
      assert (ds + rest)[1..] == ds[1..] + rest;
      DigitPrefixStops(ds[1..], rest);
    } else {
      assert ds + rest == rest;
    }
  }

  lemma {:induction false} DigitsValueOfDecimal(n: nat)
    ensures DigitsValue(DecimalText(n)) == n
  {
    if n >= 10 {
      var s := DecimalText(n);
      assert s[..|s| - 1] == DecimalText(n / 10);
      DigitsValueOfDecimal(n / 10);
    }
  }

  /** A leading '-' negates the number that follows, whatever non-digit text follows that. */
  lemma ParseIntNegative(n: nat, rest: string)
    requires rest == [] || !IsDigit(rest[0])
    ensures ParseInt("-" + DecimalText(n) + rest) == Some(-(n as int))
  {
    var t := DecimalText(n);
    var s := "-" + t + rest;
    assert s[0] == '-' && s[1..] == t + rest;
    assert DigitPrefix(t + rest) == t by {
      DigitPrefixStops(t, rest);
    }
    assert DigitsValue(t) == n by {
      DigitsValueOfDecimal(n);
    }
  }

  /** parseInt reads back the decimal text of a natural number, whatever non-digit text follows it. */
  lemma ParseIntDecimal(n: nat, rest: string)
    requires rest == [] || !IsDigit(rest[0])
    ensures ParseInt(DecimalText(n) + rest) == Some(n)
  {
    var s := DecimalText(n) + rest;
    assert s[0] == DecimalText(n)[0];
    DigitPrefixStops(DecimalText(n), rest);
    DigitsValueOfDecimal(n);
  }

  /** The text after the last '.' of `prefix + "." + segment` is `segment` when it holds no '.'. */
  lemma {:induction false} LastSegmentAfterDot(prefix: string, segment: string)
    requires '.' !in segment
    ensures LastSegment(prefix + "." + segment) == segment
  {
    var ip := prefix + "." + segment;
    if segment != [] {
      var init := segment[..|segment| - 1];
      assert init + [segment[|segment| - 1]] == segment;
      assert ip[..|ip| - 1] == prefix + "." + init;
      assert '.' !in init by {
        assert forall ch :: ch in init ==> ch in segment;
      }
      LastSegmentAfterDot(prefix, init);
    }
  }

  /** `parseInt(ip.split('.').pop() || '1')`: an empty last segment reads as "1". */
  function Seed(ip: string): (seed: Option<int>)
    ensures LastSegment(ip) == "" ==> seed == Some(1)
    ensures LastSegment(ip) != "" && IsDigit(LastSegment(ip)[0]) ==> seed.Some? && seed.value >= 0
  {
    var seg := LastSegment(ip);
    assert ParseInt("1") == Some(1) by {
      assert DigitChar(1) == '1';
      assert DecimalText(1) + [] == "1";
      ParseIntDecimal(1, []);
    }
    ParseInt(if seg == "" then "1" else seg)
  }

  /** The seed of an address ending in `.<n>` is `n`, however the address begins. */
  lemma SeedOfDecimalSuffix(prefix: string, n: nat)
    ensures Seed(prefix + "." + DecimalText(n)) == Some(n)
  {
    var t := DecimalText(n);
    assert '.' !in t by {
      forall i | 0 <= i < |t| ensures t[i] != '.' {
        assert IsDigit(t[i]);
      }
    }
    LastSegmentAfterDot(prefix, t);
    ParseIntDecimal(n, []);
    assert t + [] == t;
  }

  /** A multiple of `b` leaves no remainder. */
  lemma MultipleHasNoRemainder(q: int, b: int)
    requires b > 0
    ensures (q * b) % b == 0
  {
    var d := (q * b) / b;
    var m := (q * b) % b;
    assert (q - d) * b == m;
    if q - d >= 1 {
      assert false;
    } else if q - d <= -1 {
      assert false;
    }
  }

  /**
   * JavaScript's `a % b` for b > 0: the remainder takes the sign of the
   * dividend, its magnitude is below `b`, and it differs from `a` by a
   * multiple of `b`.
   */
  function JsRem(a: int, b: int): (r: int)
    requires b > 0
    ensures a >= 0 ==> 0 <= r < b
    ensures a < 0 ==> -b < r <= 0
    ensures (a - r) % b == 0
  {
    if a >= 0 then
      var q := a / b;
      assert a - a % b == q * b;
      MultipleHasNoRemainder(q, b);
      a % b
    else
      var q := (-a) / b;
      assert a + (-a) % b == (-q) * b;
      MultipleHasNoRemainder(-q, b);
      -((-a) % b)
  }

  /** `(seed * 7) % 60`: in [0, 59] for a non-negative seed, in [-59, 0] for a negative one. */
  function BaseLoad(seed: int): (load: int)
    ensures seed >= 0 ==> 0 <= load <= 59
    ensures seed < 0 ==> -59 <= load <= 0
    ensures (seed * 7 - load) % 60 == 0
  {
    JsRem(seed * 7, 60)
  }

  /** An address ending in ".9" has seed 9 and base load 3. */
  lemma BaseLoadExample(prefix: string)
    ensures Seed(prefix + ".9") == Some(9) && BaseLoad(9) == 3
  {
    assert DigitChar(9) == '9';
    assert DecimalText(9) == "9";
    assert prefix + ".9" == prefix + "." + DecimalText(9);
    SeedOfDecimalSuffix(prefix, 9);
  }

  // ---------------------------------------------------------------------------
  // pollSNMP
  // ---------------------------------------------------------------------------

  /** The values `Math.random()` returns during one `pollSNMP` call, in source order. */
  datatype Draws = Draws(
    up: real,
    warning: real,
    days: real,
    hours: real,
    cpu: real,
    memory: real,
    inbound: real,
    outbound: real)

  predicate ValidDraws(d: Draws)
  {
    InUnit(d.up) && InUnit(d.warning) && InUnit(d.days) && InUnit(d.hours) &&
    InUnit(d.cpu) && InUnit(d.memory) && InUnit(d.inbound) && InUnit(d.outbound)
  }

  /**
   * `random(1, 100) > 10 ? 'up' : (random(1, 100) > 50 ? 'warning' : 'down')`:
   * up for nine draws in ten, the rest split evenly between warning and down.
   */
  function DrawStatus(first: real, second: real): (s: DeviceStatus)
    requires InUnit(first) && InUnit(second)
    ensures s == Up <==> first >= 0.1
    ensures s == Warning <==> first < 0.1 && second >= 0.5
    ensures s == Down <==> first < 0.1 && second < 0.5
  {
    if Random(1, 100, first) > 10 then Up
    else if Random(1, 100, second) > 50 then Warning
    else Down
  }

  /** What `pollSNMP` returns; `None` in cpu or memory stands for NaN. */
  datatype Sample = Sample(
    status: DeviceStatus,
    days: nat,
    hours: nat,
    cpu: Option<int>,
    memory: Option<int>,
    inbound: int,
    outbound: int)

  /** The sample of the catch branch, taken when the address is null and cannot be split. */
  const FallbackSample := Sample(Down, 0, 0, Some(0), Some(0), 0, 0)

  /** `pollSNMP(ip, community)`; the community string is not used. */
  function PollSnmp(ip: Option<string>, d: Draws): (s: Sample)
    requires ValidDraws(d)
    ensures ip.None? ==> s == FallbackSample
    ensures ip.Some? ==> (s.status == Up <==> d.up >= 0.1)
    ensures ip.Some? ==> 1 <= s.days <= 90 && s.hours <= 23
    ensures ip.Some? ==> 100 <= s.inbound <= 900 && 100 <= s.outbound <= 900
    ensures ip.Some? ==> (s.cpu.None? <==> Seed(ip.value).None?) && (s.memory.None? <==> Seed(ip.value).None?)
    ensures ip.Some? && Seed(ip.value).Some? ==>
      var load := BaseLoad(Seed(ip.value).value);
      s.cpu.Some? && load - 5 <= s.cpu.value <= load + 15 &&
      s.memory.Some? && load <= s.memory.value <= load + 20
  {
    match ip
    case None => FallbackSample
    case Some(address) =>
      var seed := Seed(address);
      Sample(
        DrawStatus(d.up, d.warning),
        Random(1, 90, d.days),
        Random(0, 23, d.hours),
        if seed.Some? then Some(BaseLoad(seed.value) + Random(-5, 15, d.cpu)) else None,
        if seed.Some? then Some(BaseLoad(seed.value) + Random(0, 20, d.memory)) else None,
        Random(100, 900, d.inbound),
        Random(100, 900, d.outbound))
  }

  /** `(in + out) / 2`: the throughput written to every link of the device. */
  function MeanBandwidth(s: Sample): real
  {
    (s.inbound + s.outbound) as real / 2.0
  }

  /** A polled device with an address reports a throughput in [100, 900]. */
  lemma PolledBandwidthInRange(ip: string, d: Draws)
    requires ValidDraws(d)
    ensures 100.0 <= MeanBandwidth(PollSnmp(Some(ip), d)) <= 900.0
  {
    var s := PollSnmp(Some(ip), d);
    assert 200 <= s.inbound + s.outbound <= 1800;
  }

  // ---------------------------------------------------------------------------
  // The persisted link health tag
  // ---------------------------------------------------------------------------

  /**
   * The health tag written by a poll: critical above 90% utilisation,
   * warning above 75%, healthy otherwise (NaN compares false).
   */
  function PollTier(bandwidth: real, maxBandwidth: real): (t: LinkStatus)
    ensures maxBandwidth > 0.0 ==> (t == Critical <==> bandwidth * 100.0 > 90.0 * maxBandwidth)
    ensures maxBandwidth > 0.0 ==>
      (t == LinkWarning <==> 75.0 * maxBandwidth < bandwidth * 100.0 <= 90.0 * maxBandwidth)
    ensures maxBandwidth > 0.0 ==> (t == Healthy <==> bandwidth * 100.0 <= 75.0 * maxBandwidth)
    ensures maxBandwidth == 0.0 ==> (t == Critical <==> bandwidth > 0.0) && t != LinkWarning
  {
    UtilizationAbove(bandwidth, maxBandwidth, 90.0);
    UtilizationAbove(bandwidth, maxBandwidth, 75.0);
    var u := Utilization(bandwidth, maxBandwidth);
    if Above(u, 90.0) then Critical else if Above(u, 75.0) then LinkWarning else Healthy
  }

  /** Severity order of the health tags. */
  function Severity(t: LinkStatus): nat
  {
    match t
    case Healthy => 0
    case LinkWarning => 1
    case Critical => 2
  }

  /** For a fixed non-negative capacity, more throughput never gives a milder tag. */
  lemma PollTierMonotone(b1: real, b2: real, maxBandwidth: real)
    requires b1 <= b2 && maxBandwidth >= 0.0
    ensures Severity(PollTier(b1, maxBandwidth)) <= Severity(PollTier(b2, maxBandwidth))
  {
    UtilizationAbove(b1, maxBandwidth, 90.0);
    UtilizationAbove(b1, maxBandwidth, 75.0);
    UtilizationAbove(b2, maxBandwidth, 90.0);
    UtilizationAbove(b2, maxBandwidth, 75.0);
  }

  // ---------------------------------------------------------------------------
  // The effect of one cycle on the link table
  // ---------------------------------------------------------------------------

  /** A link after a poll wrote `bandwidth` to it, with the tag recomputed. */
  function Refresh(l: Link, bandwidth: real): Link
  {
    l.(bandwidth := bandwidth, status := PollTier(bandwidth, l.maxBandwidth))
  }

  /**
   * What polling one device does to the links: `bandwidth` goes to every
   * link touching `deviceId`, unless the links query failed (`linksFetched`
   * false) or the store refused that link's update (`rejected`).
   */
  datatype Effect = Effect(deviceId: string, bandwidth: real, linksFetched: bool, rejected: set<string>)

  predicate Applies(e: Effect, l: Link)
  {
    e.linksFetched && Touches(l, e.deviceId) && l.id !in e.rejected
  }

  function ApplyEffect(links: seq<Link>, e: Effect): (r: seq<Link>)
    ensures |r| == |links|
  {
    seq(|links|, i requires 0 <= i < |links| =>
      if Applies(e, links[i]) then Refresh(links[i], e.bandwidth) else links[i])
  }

  /** The link table after the first `k` devices' effects, in device order. */
  function Replay(links: seq<Link>, effects: seq<Effect>, k: nat): (r: seq<Link>)
    requires k <= |effects|
    ensures |r| == |links|
  {
    if k == 0 then links else ApplyEffect(Replay(links, effects, k - 1), effects[k - 1])
  }

  /** Only bandwidth and status ever change, and a link no effect applies to does not change at all. */
  lemma {:induction false} ReplayFrame(links: seq<Link>, effects: seq<Effect>, k: nat, i: nat)
    requires k <= |effects| && i < |links|
    ensures Replay(links, effects, k)[i] ==
      links[i].(bandwidth := Replay(links, effects, k)[i].bandwidth, status := Replay(links, effects, k)[i].status)
    ensures (forall j :: 0 <= j < k ==> !Applies(effects[j], links[i])) ==> Replay(links, effects, k)[i] == links[i]
  {
    if k > 0 {
      ReplayFrame(links, effects, k - 1, i);
    }
  }

  /**
   * A link ends with the values of the last device, in iteration order,
   * whose effect applies to it: when both endpoints are polled, the later
   * one wins.
   */
  lemma {:induction false} ReplayLastWriter(links: seq<Link>, effects: seq<Effect>, k: nat, i: nat, j: nat)
    requires j < k <= |effects| && i < |links|
    requires Applies(effects[j], links[i])
    requires forall m :: j < m < k ==> !Applies(effects[m], links[i])
    ensures Replay(links, effects, k)[i] == Refresh(links[i], effects[j].bandwidth)
  {
    ReplayFrame(links, effects, k - 1, i);
    if k - 1 > j {
      ReplayLastWriter(links, effects, k - 1, i, j);
    }
  }

  /** Every link some effect applied to carries the tag the poll rule gives its current values. */
  lemma {:induction false} TouchedLinksFollowPollTier(links: seq<Link>, effects: seq<Effect>, k: nat, i: nat, j: nat)
    requires j < k <= |effects| && i < |links|
    requires Applies(effects[j], links[i])
    ensures var l := Replay(links, effects, k)[i];
      l.status == PollTier(l.bandwidth, l.maxBandwidth)
  {
    ReplayFrame(links, effects, k - 1, i);
    if !Applies(effects[k - 1], links[i]) {
      TouchedLinksFollowPollTier(links, effects, k - 1, i, j);
    }
  }

  // ---------------------------------------------------------------------------
  // The handler
  // ---------------------------------------------------------------------------

  /** A row of the devices table, as much of it as the poller reads; `ip` may be null. */
  datatype DeviceRow = DeviceRow(id: string, ip: Option<string>, snmpCommunity: string)

  /** A row of the device_stats history. */
  datatype StatsRow = StatsRow(deviceId: string, status: DeviceStatus, uptime: string, cpu: Option<int>, memory: Option<int>)

  /** How the store answers the writes and the query made while polling one device. */
  datatype WriteOutcome = WriteOutcome(statsInserted: bool, linksFetched: bool, rejectedUpdates: set<string>)

  /** What the devices query throws: an `Error` carrying a message, or a value that is not an `Error`. */
  datatype Thrown = ErrorInstance(message: string) | NotAnError

  /** The handler's answer: `{success: true, polled}` with 200, or `{error}` with 500. */
  datatype Response = Polled(polled: nat) | ServerError(message: string)

  function HttpStatus(r: Response): nat
  {
    if r.Polled? then 200 else 500
  }

  function StatsRowOf(deviceId: string, s: Sample): StatsRow
  {
    StatsRow(deviceId, s.status, UptimeText(s.days, s.hours), s.cpu, s.memory)
  }

  predicate WellFormedRun(devices: seq<DeviceRow>, draws: seq<Draws>, outcomes: seq<WriteOutcome>)
  {
    |draws| == |devices| && |outcomes| == |devices| &&
    forall k :: 0 <= k < |draws| ==> ValidDraws(draws[k])
  }

  /** What `pollSNMP` returns for each device, in device order. */
  function Samples(devices: seq<DeviceRow>, draws: seq<Draws>): (samples: seq<Sample>)
    requires |draws| == |devices| && forall k :: 0 <= k < |draws| ==> ValidDraws(draws[k])
    ensures |samples| == |devices|
    ensures forall k :: 0 <= k < |devices| ==> samples[k] == PollSnmp(devices[k].ip, draws[k])
  {
    seq(|devices|, k requires 0 <= k < |devices| => PollSnmp(devices[k].ip, draws[k]))
  }

  function EffectOf(device: DeviceRow, s: Sample, outcome: WriteOutcome): Effect
  {
    Effect(device.id, MeanBandwidth(s), outcome.linksFetched, outcome.rejectedUpdates)
  }

  /** The effect of each device on the link table, in device order. */
  function PollEffects(devices: seq<DeviceRow>, samples: seq<Sample>, outcomes: seq<WriteOutcome>): (effects: seq<Effect>)
    requires |samples| == |devices| && |outcomes| == |devices|
    ensures |effects| == |devices|
    ensures forall k :: 0 <= k < |devices| ==> effects[k].deviceId == devices[k].id
    ensures forall k :: 0 <= k < |devices| ==>
      effects[k].bandwidth == MeanBandwidth(samples[k]) &&
      effects[k].linksFetched == outcomes[k].linksFetched &&
      effects[k].rejected == outcomes[k].rejectedUpdates
  {
    seq(|devices|, k requires 0 <= k < |devices| => EffectOf(devices[k], samples[k], outcomes[k]))
  }

  /** The stats rows the first `k` devices add to the history: one each, unless its insert failed. */
  function NewStats(devices: seq<DeviceRow>, samples: seq<Sample>, outcomes: seq<WriteOutcome>, k: nat): seq<StatsRow>
    requires |samples| == |devices| && |outcomes| == |devices| && k <= |devices|
  {
    if k == 0 then []
    else
      NewStats(devices, samples, outcomes, k - 1) +
      (if outcomes[k - 1].statsInserted then [StatsRowOf(devices[k - 1].id, samples[k - 1])] else [])
  }

  /** The history gains at most one row per device. */
  lemma {:induction false} NewStatsAtMost(devices: seq<DeviceRow>, samples: seq<Sample>, outcomes: seq<WriteOutcome>, k: nat)
    requires |samples| == |devices| && |outcomes| == |devices| && k <= |devices|
    ensures |NewStats(devices, samples, outcomes, k)| <= k
  {
    if k > 0 {
      NewStatsAtMost(devices, samples, outcomes, k - 1);
    }
  }

  /**
   * With no failed insert, the history gains exactly one row per device, in
   * device order, each holding that device's sample.
   */
  lemma {:induction false} NewStatsOnePerDevice(devices: seq<DeviceRow>, samples: seq<Sample>, outcomes: seq<WriteOutcome>, k: nat)
    requires |samples| == |devices| && |outcomes| == |devices| && k <= |devices|
    requires forall j :: 0 <= j < k ==> outcomes[j].statsInserted
    ensures |NewStats(devices, samples, outcomes, k)| == k
    ensures forall j :: 0 <= j < k ==>
      NewStats(devices, samples, outcomes, k)[j] == StatsRowOf(devices[j].id, samples[j])
  {
    if k > 0 {
      NewStatsOnePerDevice(devices, samples, outcomes, k - 1);
      var prev := NewStats(devices, samples, outcomes, k - 1);
      assert NewStats(devices, samples, outcomes, k) == prev + [StatsRowOf(devices[k - 1].id, samples[k - 1])];
    }
  }

  /** The hosted tables the poller reads and writes. */
  class Store {
    var devices: seq<DeviceRow>
    var deviceStats: seq<StatsRow>
    var links: seq<Link>

    constructor (devices: seq<DeviceRow>, deviceStats: seq<StatsRow>, links: seq<Link>)
      ensures this.devices == devices && this.deviceStats == deviceStats && this.links == links
    {
      this.devices := devices;
      this.deviceStats := deviceStats;
      this.links := links;
    }

    /**
     * The inner loop of the handler: every link touching `deviceId` gets
     * `bandwidth` and its recomputed tag, except those whose update the
     * store refuses.
     */
    method UpdateIncidentLinks(deviceId: string, bandwidth: real, rejected: set<string>)
      modifies this
      ensures devices == old(devices) && deviceStats == old(deviceStats)
      ensures links == ApplyEffect(old(links), Effect(deviceId, bandwidth, true, rejected))
    {
      ghost var e := Effect(deviceId, bandwidth, true, rejected);
      var i := 0;
      while i < |links|
        invariant 0 <= i <= |links| && |links| == |old(links)|
        invariant devices == old(devices) && deviceStats == old(deviceStats)
        invariant forall j :: 0 <= j < i ==> links[j] == ApplyEffect(old(links), e)[j]
        invariant forall j :: i <= j < |links| ==> links[j] == old(links)[j]
      {
        if Touches(links[i], deviceId) && links[i].id !in rejected {
          links := links[i := Refresh(links[i], bandwidth)];
        }
        i := i + 1;
      }
    }

    /**
     * One pass of the handler's device loop: the device's stats row is
     * appended unless the insert fails, and its throughput goes to the
     * links touching it unless the links query fails.
     */
    method PollDevice(device: DeviceRow, d: Draws, outcome: WriteOutcome)
      requires ValidDraws(d)
      modifies this
      ensures devices == old(devices)
      ensures deviceStats == old(deviceStats) +
        (if outcome.statsInserted then [StatsRowOf(device.id, PollSnmp(device.ip, d))] else [])
      ensures links == ApplyEffect(old(links), EffectOf(device, PollSnmp(device.ip, d), outcome))
    {
      var sample := PollSnmp(device.ip, d);
      if outcome.statsInserted {
        deviceStats := deviceStats + [StatsRowOf(device.id, sample)];
      }
      if outcome.linksFetched {
        UpdateIncidentLinks(device.id, MeanBandwidth(sample), outcome.rejectedUpdates);
      } else {
        assert ApplyEffect(links, EffectOf(device, sample, outcome)) == links;
      }
    }

    /**
     * The handler's device loop: every device is polled in table order, its
     * stats row appended unless the insert fails and its throughput written
     * to the links touching it.
     */
    method PollAll(draws: seq<Draws>, outcomes: seq<WriteOutcome>)
      requires WellFormedRun(devices, draws, outcomes)
      modifies this
      ensures devices == old(devices)
      ensures deviceStats == old(deviceStats) + NewStats(devices, Samples(devices, draws), outcomes, |devices|)
      ensures links == Replay(old(links), PollEffects(devices, Samples(devices, draws), outcomes), |devices|)
    {
      ghost var samples := Samples(devices, draws);
      ghost var effects := PollEffects(devices, samples, outcomes);
      var k := 0;
      while k < |devices|
        invariant 0 <= k <= |devices| && devices == old(devices)
        invariant deviceStats == old(deviceStats) + NewStats(devices, samples, outcomes, k)
        invariant links == Replay(old(links), effects, k)
      {
        PollDevice(devices[k], draws[k], outcomes[k]);
        assert samples[k] == PollSnmp(devices[k].ip, draws[k]);
        assert effects[k] == EffectOf(devices[k], samples[k], outcomes[k]);
        k := k + 1;
      }
    }

    /**
     * One invocation of the poll function. `fetchError` is what the devices
     * query throws, if anything; `draws[k]` are the random draws and
     * `outcomes[k]` the store's answers while device k is polled.
     */
    method Serve(fetchError: Option<Thrown>, draws: seq<Draws>, outcomes: seq<WriteOutcome>) returns (resp: Response)
      requires WellFormedRun(devices, draws, outcomes)
      modifies this
      ensures devices == old(devices)
      ensures fetchError.Some? ==>
        HttpStatus(resp) == 500 && deviceStats == old(deviceStats) && links == old(links)
      ensures fetchError.Some? && fetchError.value.ErrorInstance? ==> resp == ServerError(fetchError.value.message)
      ensures fetchError == Some(NotAnError) ==> resp == ServerError("Unknown error")
      ensures fetchError.None? ==>
        resp == Polled(|devices|) && HttpStatus(resp) == 200 &&
        deviceStats == old(deviceStats) + NewStats(devices, Samples(devices, draws), outcomes, |devices|) &&
        links == Replay(old(links), PollEffects(devices, Samples(devices, draws), outcomes), |devices|)
    {
      match fetchError {
        case Some(ErrorInstance(message)) =>
          return ServerError(message);
        case Some(NotAnError) =>
          return ServerError("Unknown error");
        case None =>
      }
      PollAll(draws, outcomes);
      resp := Polled(|devices|);
    }
  }
}
