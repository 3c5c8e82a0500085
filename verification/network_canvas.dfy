/**
 * The topology canvas: which links it draws and in what colour, where the
 * three traffic dots of a link sit for a given animation frame, the
 * animation counter, and the mouse-down hit-test that selects a device.
 * Pixels, fonts and labels are not part of this model.
 */
module NetworkCanvas {
  import opened Topology
  import SnmpPoll
  import Dashboard

  // ---------------------------------------------------------------------------
  // Array.prototype.find
  // ---------------------------------------------------------------------------

  /** The index of the first element satisfying `p`, or `|s|` when there is none. */
  function FirstIndex<T>(s: seq<T>, p: T -> bool): (i: nat)
    ensures i <= |s|
    ensures i < |s| ==> p(s[i])
    ensures forall j :: 0 <= j < i ==> !p(s[j])
  {
    if s == [] then 0
    else if p(s[0]) then 0
    else 1 + FirstIndex(s[1..], p)
  }

  /** `s.find(p)`: the first element satisfying `p`, if any. */
  function Find<T>(s: seq<T>, p: T -> bool): Option<T>
  {
    var i := FirstIndex(s, p);
    if i < |s| then Some(s[i]) else None
  }

  /**
   * `find` returns an element of the list that satisfies the predicate and
   * that no earlier element satisfies; it returns nothing exactly when no
   * element satisfies it.
   */
  lemma FindFirst<T>(s: seq<T>, p: T -> bool)
    ensures Find(s, p).None? <==> forall j :: 0 <= j < |s| ==> !p(s[j])
    ensures Find(s, p).Some? ==>
      exists i :: 0 <= i < |s| && s[i] == Find(s, p).value && p(s[i]) &&
        forall j :: 0 <= j < i ==> !p(s[j])
  {
    var i := FirstIndex(s, p);
    if i < |s| {
      assert s[i] == Find(s, p).value;
    }
  }

  function Named(id: string): Device -> bool
  {
    (d: Device) => d.id == id
  }

  /** `devices.find((d) => d.id === id)` */
  function FindDevice(devices: seq<Device>, id: string): Option<Device>
  {
    Find(devices, Named(id))
  }

  /** Looking a device up by id succeeds exactly when the list holds a device with that id, and finds one with that id. */
  lemma FindDeviceResolves(devices: seq<Device>, id: string)
    ensures FindDevice(devices, id).Some? <==> Dashboard.HasDevice(devices, id)
    ensures FindDevice(devices, id).Some? ==>
      FindDevice(devices, id).value in devices && FindDevice(devices, id).value.id == id
  {
    FindFirst(devices, Named(id));
    if Dashboard.HasDevice(devices, id) {
      var d :| d in devices && d.id == id;
      var k :| 0 <= k < |devices| && devices[k] == d;
      assert Named(id)(devices[k]);
    }
  }

  // ---------------------------------------------------------------------------
  // Link colour
  // ---------------------------------------------------------------------------

  /** The stroke colour of a link. */
  datatype Colour = Green | Orange | Red

  /** Red above 80% utilisation, orange above 60%, green otherwise (NaN compares false). */
  function ColourTier(bandwidth: real, maxBandwidth: real): (c: Colour)
    ensures maxBandwidth > 0.0 ==> (c == Red <==> bandwidth * 100.0 > 80.0 * maxBandwidth)
    ensures maxBandwidth > 0.0 ==>
      (c == Orange <==> 60.0 * maxBandwidth < bandwidth * 100.0 <= 80.0 * maxBandwidth)
    ensures maxBandwidth > 0.0 ==> (c == Green <==> bandwidth * 100.0 <= 60.0 * maxBandwidth)
    ensures maxBandwidth == 0.0 ==> (c == Red <==> bandwidth > 0.0) && c != Orange
  {
    UtilizationAbove(bandwidth, maxBandwidth, 80.0);
    UtilizationAbove(bandwidth, maxBandwidth, 60.0);
    var u := Utilization(bandwidth, maxBandwidth);
    if Above(u, 80.0) then Red else if Above(u, 60.0) then Orange else Green
  }

  /** Severity order of the colours. */
  function Rank(c: Colour): nat
  {
    match c
    case Green => 0
    case Orange => 1
    case Red => 2
  }

  /** For a fixed non-negative capacity, more throughput never gives a milder colour. */
  lemma ColourTierMonotone(b1: real, b2: real, maxBandwidth: real)
    requires b1 <= b2 && maxBandwidth >= 0.0
    ensures Rank(ColourTier(b1, maxBandwidth)) <= Rank(ColourTier(b2, maxBandwidth))
  {
    UtilizationAbove(b1, maxBandwidth, 80.0);
    UtilizationAbove(b1, maxBandwidth, 60.0);
    UtilizationAbove(b2, maxBandwidth, 80.0);
    UtilizationAbove(b2, maxBandwidth, 60.0);
  }

  /**
   * On any link, the colour is at least as severe as the tag a poll would
   * write: a critical tag is drawn red, a warning tag orange or red.
   */
  lemma ColourAtLeastPollTier(bandwidth: real, maxBandwidth: real)
    ensures SnmpPoll.PollTier(bandwidth, maxBandwidth) == Critical ==> ColourTier(bandwidth, maxBandwidth) == Red
    ensures SnmpPoll.PollTier(bandwidth, maxBandwidth) == LinkWarning ==> ColourTier(bandwidth, maxBandwidth) != Green
    ensures Rank(ColourTier(bandwidth, maxBandwidth)) >= SnmpPoll.Severity(SnmpPoll.PollTier(bandwidth, maxBandwidth))
  {
    var u := Utilization(bandwidth, maxBandwidth);
    AboveLower(u, 90.0, 80.0);
    AboveLower(u, 75.0, 60.0);
  }

  /**
   * The fourth initial link carries 890.5 of 1000: it is stored as critical
   * and drawn red, but a poll would tag that throughput as a warning.
   */
  lemma SeedLinkTiers()
    ensures var l := Dashboard.InitialLinks()[3];
      l.status == Critical &&
      ColourTier(l.bandwidth, l.maxBandwidth) == Red &&
      SnmpPoll.PollTier(l.bandwidth, l.maxBandwidth) == LinkWarning
  {
    var l := Dashboard.InitialLinks()[3];
    assert l.bandwidth == 890.5 && l.maxBandwidth == 1000.0;
  }

  // ---------------------------------------------------------------------------
  // Traffic dots
  // ---------------------------------------------------------------------------

  /** `x % 1` for a non-negative `x`: its fractional part. */
  function Frac(x: real): (f: real)
    requires x >= 0.0
    ensures 0.0 <= f < 1.0
    ensures (x - f).Floor as real == x - f
  {
    x - x.Floor as real
  }

  /** `(frame % 10) / 10`: how far the dots have moved along, in tenths. */
  function DotOffset(frame: nat): (offset: real)
    ensures 0.0 <= offset <= 0.9
    ensures offset * 10.0 == (frame % 10) as real
  {
    (frame % 10) as real / 10.0
  }

  /** The three dot parameters `(i / 3 + offset) % 1`, for i = 0, 1, 2. */
  function DotParams(frame: nat): (ts: seq<real>)
    ensures |ts| == 3
    ensures forall i :: 0 <= i < 3 ==> 0.0 <= ts[i] < 1.0
  {
    var offset := DotOffset(frame);
    [Frac(0.0 + offset), Frac(1.0 / 3.0 + offset), Frac(2.0 / 3.0 + offset)]
  }

  /** `a + (b - a) * t`: the point a fraction `t` of the way from `a` to `b`. */
  function Along(a: real, b: real, t: real): real
  {
    a + (b - a) * t
  }

  /** `v` lies in the closed interval spanned by `a` and `b`. */
  predicate Within(v: real, a: real, b: real)
  {
    (a <= b ==> a <= v <= b) && (b <= a ==> b <= v <= a)
  }

  lemma ProductNonNegative(x: real, y: real)
    requires x >= 0.0 && y >= 0.0
    ensures x * y >= 0.0
  {
  }

  /** For t in [0, 1), the point a fraction t along from `a` to `b` lies between them. */
  lemma AlongWithin(a: real, b: real, t: real)
    requires 0.0 <= t < 1.0
    ensures Within(Along(a, b, t), a, b)
  {
    var r := 1.0 - t;
    if a <= b {
      ProductNonNegative(b - a, t);
      ProductNonNegative(b - a, r);
      assert (b - a) * t + (b - a) * r == b - a;
    } else {
      ProductNonNegative(a - b, t);
      ProductNonNegative(a - b, r);
      assert (a - b) * t + (a - b) * r == a - b;
      assert (b - a) * t == -((a - b) * t);
    }
  }

  // ---------------------------------------------------------------------------
  // Drawing links
  // ---------------------------------------------------------------------------

  /** What the canvas draws for one link: a line, its colour, and three dots on it. */
  datatype Stroke = Stroke(
    linkId: string,
    x0: real, y0: real,
    x1: real, y1: real,
    colour: Colour,
    dots: seq<(real, real)>)

  /** Both ends of the link name a device in the list. */
  predicate Resolves(devices: seq<Device>, l: Link)
  {
    FindDevice(devices, l.source).Some? && FindDevice(devices, l.target).Some?
  }

  function Resolvable(devices: seq<Device>): Link -> bool
  {
    (l: Link) => Resolves(devices, l)
  }

  /** The stroke for a link whose ends resolve, from the first device found for each end. */
  function Draw(devices: seq<Device>, l: Link, frame: nat): Stroke
    requires Resolves(devices, l)
  {
    var s := FindDevice(devices, l.source).value;
    var t := FindDevice(devices, l.target).value;
    var ts := DotParams(frame);
    Stroke(l.id, s.x, s.y, t.x, t.y, ColourTier(l.bandwidth, l.maxBandwidth),
      seq(3, i requires 0 <= i < 3 => (Along(s.x, t.x, ts[i]), Along(s.y, t.y, ts[i]))))
  }

  /** Every dot lies within the bounding box of its line. */
  lemma DotsOnLine(devices: seq<Device>, l: Link, frame: nat)
    requires Resolves(devices, l)
    ensures var st := Draw(devices, l, frame);
      |st.dots| == 3 &&
      forall i :: 0 <= i < 3 ==> Within(st.dots[i].0, st.x0, st.x1) && Within(st.dots[i].1, st.y0, st.y1)
  {
    var st := Draw(devices, l, frame);
    var ts := DotParams(frame);
    forall i | 0 <= i < 3
      ensures Within(st.dots[i].0, st.x0, st.x1) && Within(st.dots[i].1, st.y0, st.y1)
    {
      assert st.dots[i] == (Along(st.x0, st.x1, ts[i]), Along(st.y0, st.y1, ts[i]));
      AlongWithin(st.x0, st.x1, ts[i]);
      AlongWithin(st.y0, st.y1, ts[i]);
    }
  }

  /** The strokes of `links.forEach(...)`, in order, skipping links with an unresolved end. */
  function Strokes(devices: seq<Device>, links: seq<Link>, frame: nat): (strokes: seq<Stroke>)
    ensures |strokes| <= |links|
    ensures forall i :: 0 <= i < |strokes| ==> |strokes[i].dots| == 3
  {
    if links == [] then []
    else
      var l := links[|links| - 1];
      Strokes(devices, links[..|links| - 1], frame) + (if Resolves(devices, l) then [Draw(devices, l, frame)] else [])
  }

  /**
   * The canvas draws exactly the links whose ends both resolve, once each,
   * in list order.
   */
  lemma {:induction false} StrokesOfResolvable(devices: seq<Device>, links: seq<Link>, frame: nat)
    ensures var drawn := Filter(links, Resolvable(devices));
      |Strokes(devices, links, frame)| == |drawn| &&
      forall k :: 0 <= k < |drawn| ==>
        Resolves(devices, drawn[k]) && Strokes(devices, links, frame)[k] == Draw(devices, drawn[k], frame)
  {
    if links != [] {
      var init := links[..|links| - 1];
      var l := links[|links| - 1];
      assert links == init + [l];
      StrokesOfResolvable(devices, init, frame);
      FilterConcat(init, [l], Resolvable(devices));
      FilterSingleton(l, Resolvable(devices));
      var before := Filter(init, Resolvable(devices));
      var strokes := Strokes(devices, init, frame);
      if Resolves(devices, l) {
        var drawn := before + [l];
        assert Filter(links, Resolvable(devices)) == drawn;
        assert Strokes(devices, links, frame) == strokes + [Draw(devices, l, frame)];
        forall k | 0 <= k < |drawn|
          ensures Resolves(devices, drawn[k]) && (strokes + [Draw(devices, l, frame)])[k] == Draw(devices, drawn[k], frame)
        {
          if k < |before| {
            assert drawn[k] == before[k];
          }
        }
      } else {
        assert Filter(links, Resolvable(devices)) == before + [];
        assert Strokes(devices, links, frame) == strokes + [];
      }
    }
  }

  /** When every link's ends name devices in the list, every link is drawn, in order. */
  lemma AllLinksDrawnWhenResolved(devices: seq<Device>, links: seq<Link>, frame: nat)
    requires Dashboard.LinksResolve(devices, links)
    ensures |Strokes(devices, links, frame)| == |links|
    ensures forall k :: 0 <= k < |links| ==> Strokes(devices, links, frame)[k].linkId == links[k].id
  {
    forall l | l in links ensures Resolvable(devices)(l) {
      FindDeviceResolves(devices, l.source);
      FindDeviceResolves(devices, l.target);
    }
    FilterKeepsAll(links, Resolvable(devices));
    StrokesOfResolvable(devices, links, frame);
  }

  // ---------------------------------------------------------------------------
  // Hit-testing
  // ---------------------------------------------------------------------------

  /** The radius of a drawn device circle, which is also the hit radius. */
  const DeviceRadius: real := 30.0

  /** The squared distance from the device's centre to the point. */
  function SquaredDistance(d: Device, px: real, py: real): (sq: real)
    ensures sq >= 0.0
  {
    (d.x - px) * (d.x - px) + (d.y - py) * (d.y - py)
  }

  /**
   * The point lies strictly within radius 30 of the device's centre, both in
   * the canvas's own pixel coordinates.
   */
  predicate Hits(d: Device, px: real, py: real)
  {
    SquaredDistance(d, px, py) < DeviceRadius * DeviceRadius
  }

  /**
   * Comparing squared distances decides the same as comparing distances:
   * for a non-negative `dist` with `dist * dist == sq`, `dist < 30` exactly
   * when `sq < 900`; so a point at distance exactly 30 is not a hit.
   */
  lemma SquaredComparison(dist: real, sq: real)
    requires dist >= 0.0 && dist * dist == sq
    ensures dist < DeviceRadius <==> sq < DeviceRadius * DeviceRadius
    ensures dist == DeviceRadius ==> !(sq < DeviceRadius * DeviceRadius)
  {
    if dist < 30.0 {
      ProductNonNegative(dist, 30.0 - dist);
      assert dist * (30.0 - dist) == dist * 30.0 - dist * dist;
    } else {
      ProductNonNegative(dist - 30.0, dist);
      assert (dist - 30.0) * dist == dist * dist - 30.0 * dist;
    }
  }

  function HitAt(px: real, py: real): Device -> bool
  {
    (d: Device) => Hits(d, px, py)
  }

  /** `devices.find((device) => distance < 30)` */
  function HitTest(devices: seq<Device>, px: real, py: real): (hit: Option<Device>)
    ensures hit.Some? ==> hit.value in devices && Hits(hit.value, px, py)
  {
    var i := FirstIndex(devices, HitAt(px, py));
    assert i < |devices| ==> Hits(devices[i], px, py);
    Find(devices, HitAt(px, py))
  }

  /**
   * A click selects the first device, in list order, whose circle strictly
   * contains the point, and selects nothing when no circle does.
   */
  lemma HitTestFirst(devices: seq<Device>, px: real, py: real)
    ensures HitTest(devices, px, py).None? <==> forall j :: 0 <= j < |devices| ==> !Hits(devices[j], px, py)
    ensures HitTest(devices, px, py).Some? ==>
      exists i :: 0 <= i < |devices| && devices[i] == HitTest(devices, px, py).value &&
        Hits(devices[i], px, py) && forall j :: 0 <= j < i ==> !Hits(devices[j], px, py)
  {
    FindFirst(devices, HitAt(px, py));
    var i := FirstIndex(devices, HitAt(px, py));
    if i < |devices| {
      assert Hits(devices[i], px, py);
    }
  }

  // ---------------------------------------------------------------------------
  // The animation counter
  // ---------------------------------------------------------------------------

  /** `(prev + 1) % 360` */
  function NextFrame(frame: nat): (next: nat)
    ensures next < 360
    ensures frame < 359 ==> next == frame + 1
    ensures frame == 359 ==> next == 0
  {
    (frame + 1) % 360
  }

  /** The counter after `n` ticks. */
  function Frames(frame: nat, n: nat): nat
  {
    if n == 0 then frame else NextFrame(Frames(frame, n - 1))
  }

  /** A remainder modulo 360 is determined by any quotient-remainder split. */
  lemma ModUnique(a: int, q: int, r: int)
    requires a == 360 * q + r && 0 <= r < 360
    ensures a % 360 == r
  {
  }

  /** After `n` ticks the counter is below 360 and differs from `frame + n` by a multiple of 360. */
  lemma {:induction false} FramesQuotient(frame: nat, n: nat) returns (q: int)
    requires frame < 360
    ensures Frames(frame, n) < 360 && frame + n == 360 * q + Frames(frame, n)
  {
    if n == 0 {
      q := 0;
    } else {
      q := FramesQuotient(frame, n - 1);
      if Frames(frame, n - 1) == 359 {
        q := q + 1;
      }
    }
  }

  /** From a frame in range, `n` ticks advance the counter by `n` modulo 360. */
  lemma FramesAdvance(frame: nat, n: nat)
    requires frame < 360
    ensures Frames(frame, n) == (frame + n) % 360
  {
    var q := FramesQuotient(frame, n);
    ModUnique(frame + n, q, Frames(frame, n));
  }

  /** The canvas component's own state. */
  class CanvasState {
    var animationFrame: nat
    var draggedDevice: Option<string>

    ghost predicate Valid()
      reads this
    {
      animationFrame < 360
    }

    constructor ()
      ensures animationFrame == 0 && draggedDevice == None
      ensures Valid()
    {
      animationFrame := 0;
      draggedDevice := None;
    }

    /** One interval tick: the counter advances modulo 360; nothing else changes. */
    method Tick()
      requires Valid()
      modifies this
      ensures Valid()
      ensures animationFrame == NextFrame(old(animationFrame))
      ensures draggedDevice == old(draggedDevice)
    {
      animationFrame := (animationFrame + 1) % 360;
    }

    /**
     * `handleMouseDown` with the click's offset (px, py) from the canvas's
     * top-left corner, compared as-is with the device centres: on a hit the device becomes
     * the dragged one and is returned for the click callback; on a miss
     * nothing changes and nothing is returned.
     */
    method MouseDown(devices: seq<Device>, px: real, py: real) returns (clicked: Option<Device>)
      modifies this
      ensures clicked == HitTest(devices, px, py)
      ensures clicked.Some? ==> draggedDevice == Some(clicked.value.id)
      ensures clicked.None? ==> draggedDevice == old(draggedDevice)
      ensures animationFrame == old(animationFrame)
    {
      clicked := HitTest(devices, px, py);
      if clicked.Some? {
        draggedDevice := Some(clicked.value.id);
      }
    }

    /** The link pass of the draw effect at the current frame. */
    method DrawLinks(devices: seq<Device>, links: seq<Link>) returns (strokes: seq<Stroke>)
      ensures strokes == Strokes(devices, links, animationFrame)
    {
      strokes := [];
      var i := 0;
      while i < |links|
        invariant 0 <= i <= |links|
        invariant strokes == Strokes(devices, links[..i], animationFrame)
      {
        var l := links[i];
        var source := FindDevice(devices, l.source);
        var target := FindDevice(devices, l.target);
        if source.Some? && target.Some? {
          strokes := strokes + [Draw(devices, l, animationFrame)];
        }
        assert links[..i + 1][..i] == links[..i];
        i := i + 1;
      }
      assert links[..i] == links;
    }
  }
}
