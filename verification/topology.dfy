/**
 * The entities every part of the dashboard shares: devices, links, their
 * status enumerations, order-preserving filtering, and the arithmetic of a
 * link's utilisation (throughput over capacity, as a percentage), including
 * the infinities and NaN that a zero capacity produces in JavaScript.
 */
module Topology {

  datatype Option<+T> = None | Some(value: T)

  /** Operational state of a device: a three-value union. */
  datatype DeviceStatus = Up | Down | Warning

  /** Device category; only a label for the icon. */
  datatype DeviceType = Router | Switch | Server

  /** Health tag stored on a link. */
  datatype LinkStatus = Healthy | LinkWarning | Critical

  /** A device as the dashboard holds it (with its latest stats merged in). */
  datatype Device = Device(
    id: string,
    name: string,
    ip: string,
    x: real,
    y: real,
    status: DeviceStatus,
    kind: DeviceType,
    snmpCommunity: string,
    uptime: string,
    cpu: int,
    memory: int)

  /** A link between two devices, named by their ids. */
  datatype Link = Link(
    id: string,
    source: string,
    target: string,
    bandwidth: real,
    maxBandwidth: real,
    status: LinkStatus)

  /** True iff one of the link's endpoints is the device `id`. */
  predicate Touches(l: Link, id: string)
  {
    l.source == id || l.target == id
  }

  /** A value `Math.random()` can return. */
  predicate InUnit(r: real)
  {
    0.0 <= r < 1.0
  }

  // ---------------------------------------------------------------------------
  // Array.prototype.filter on sequences
  // ---------------------------------------------------------------------------

  /** The elements of `s` that satisfy `keep`, in their original order. */
  function Filter<T(!new)>(s: seq<T>, keep: T -> bool): (r: seq<T>)
    ensures |r| <= |s|
    ensures forall x :: x in r <==> x in s && keep(x)
  {
    if s == [] then [] else (if keep(s[0]) then [s[0]] else []) + Filter(s[1..], keep)
  }

  /** Filtering distributes over concatenation; with FilterSingleton this fixes the order of the result. */
  lemma {:induction false} FilterConcat<T(!new)>(a: seq<T>, b: seq<T>, keep: T -> bool)
    ensures Filter(a + b, keep) == Filter(a, keep) + Filter(b, keep)
  {
    if a == [] {
      assert a + b == b;
    } else {
      assert (a + b)[0] == a[0];
      assert (a + b)[1..] == a[1..] + b;
      FilterConcat(a[1..], b, keep);
    }
  }

  /** A one-element sequence is kept or dropped as a whole. */
  lemma FilterSingleton<T(!new)>(x: T, keep: T -> bool)
    ensures Filter([x], keep) == if keep(x) then [x] else []
  {
    assert [x][1..] == [];
  }

  /** When every element is kept, filtering changes nothing. */
  lemma {:induction false} FilterKeepsAll<T(!new)>(s: seq<T>, keep: T -> bool)
    requires forall x :: x in s ==> keep(x)
    ensures Filter(s, keep) == s
  {
    if s != [] {
      assert forall x :: x in s[1..] ==> x in s;
      FilterKeepsAll(s[1..], keep);
    }
  }

  /** Filtering twice with the same predicate is filtering once. */
  lemma FilterIdempotent<T(!new)>(s: seq<T>, keep: T -> bool)
    ensures Filter(Filter(s, keep), keep) == Filter(s, keep)
  {
    FilterKeepsAll(Filter(s, keep), keep);
  }

  // ---------------------------------------------------------------------------
  // Utilisation in JavaScript number semantics
  // ---------------------------------------------------------------------------

  /**
   * The JavaScript numbers a utilisation can be: a finite value, the two
   * infinities, or NaN. Rounding of finite values is not modelled.
   */
  datatype JsNum = Finite(v: real) | PosInf | NegInf | NaN

  /** `a / b` for finite operands: division by zero gives an infinity, or NaN for 0/0. */
  function Div(a: real, b: real): JsNum
  {
    if b != 0.0 then Finite(a / b)
    else if a > 0.0 then PosInf
    else if a < 0.0 then NegInf
    else NaN
  }

  /** `u * 100`. */
  function Percent(u: JsNum): JsNum
  {
    match u
    case Finite(v) => Finite(v * 100.0)
    case _ => u
  }

  /** `u > c` for a finite constant `c`; every comparison with NaN is false. */
  predicate Above(u: JsNum, c: real)
  {
    match u
    case Finite(v) => v > c
    case PosInf => true
    case _ => false
  }

  /** `a + b`; NaN absorbs, and opposite infinities give NaN. */
  function Add(a: JsNum, b: JsNum): JsNum
  {
    match (a, b)
    case (Finite(x), Finite(y)) => Finite(x + y)
    case (NaN, _) => NaN
    case (_, NaN) => NaN
    case (PosInf, NegInf) => NaN
    case (NegInf, PosInf) => NaN
    case (PosInf, _) => PosInf
    case (_, PosInf) => PosInf
    case (NegInf, _) => NegInf
    case (_, NegInf) => NegInf
  }

  /** `(bandwidth / maxBandwidth) * 100`. */
  function Utilization(bandwidth: real, maxBandwidth: real): JsNum
  {
    Percent(Div(bandwidth, maxBandwidth))
  }

  /**
   * The threshold test `utilization > c` without division: for a positive
   * capacity it is `bandwidth * 100 > c * capacity`; a negative capacity
   * flips the comparison; a zero capacity exceeds every threshold exactly
   * when the throughput is positive (Infinity) and none otherwise (-Infinity, NaN).
   */
  lemma UtilizationAbove(bandwidth: real, maxBandwidth: real, c: real)
    ensures maxBandwidth > 0.0 ==>
      (Above(Utilization(bandwidth, maxBandwidth), c) <==> bandwidth * 100.0 > c * maxBandwidth)
    ensures maxBandwidth < 0.0 ==>
      (Above(Utilization(bandwidth, maxBandwidth), c) <==> bandwidth * 100.0 < c * maxBandwidth)
    ensures maxBandwidth == 0.0 ==>
      (Above(Utilization(bandwidth, maxBandwidth), c) <==> bandwidth > 0.0)
  {
    if maxBandwidth != 0.0 {
      var q := bandwidth / maxBandwidth;
      assert q * maxBandwidth == bandwidth;
      assert Utilization(bandwidth, maxBandwidth) == Finite(q * 100.0);
      assert (q * 100.0) * maxBandwidth == bandwidth * 100.0;
      if maxBandwidth > 0.0 {
        assert q * 100.0 > c <==> (q * 100.0) * maxBandwidth > c * maxBandwidth;
      } else {
        assert q * 100.0 > c <==> (q * 100.0) * maxBandwidth < c * maxBandwidth;
      }
    }
  }

  /** Exceeding a threshold implies exceeding every lower one. */
  lemma AboveLower(u: JsNum, c: real, lower: real)
    requires lower <= c
    ensures Above(u, c) ==> Above(u, lower)
  {
  }

  // ---------------------------------------------------------------------------
  // Decimal text
  // ---------------------------------------------------------------------------

  /** The character of a decimal digit. */
  function DigitChar(d: nat): (ch: char)
    requires d < 10
    ensures '0' <= ch <= '9'
  {
    (('0' as int) + d) as char
  }

  predicate IsDigit(ch: char)
  {
    '0' <= ch <= '9'
  }

  /** The decimal text of `n`, as `String(n)` or a template literal writes it. */
  function DecimalText(n: nat): (s: string)
    ensures |s| >= 1
    ensures forall i :: 0 <= i < |s| ==> IsDigit(s[i])
    ensures s[0] == '0' ==> n == 0
  {
    if n < 10 then [DigitChar(n)] else DecimalText(n / 10) + [DigitChar(n % 10)]
  }

  /** An uptime display string `<days>d <hours>h`. */
  function UptimeText(days: nat, hours: nat): string
  {
    DecimalText(days) + "d " + DecimalText(hours) + "h"
  }
}
