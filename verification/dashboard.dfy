/**
 * The dashboard page: the device and link lists it holds as state, adding
 * and removing devices, and the aggregates it hands to the stats panel.
 */
module Dashboard {
  import opened Topology

  /** True iff some device in the list has identity `id`. */
  predicate HasDevice(devices: seq<Device>, id: string)
  {
    exists d :: d in devices && d.id == id
  }

  /** Referential integrity: both ends of every link name a device in the list. */
  predicate LinksResolve(devices: seq<Device>, links: seq<Link>)
  {
    forall l :: l in links ==> HasDevice(devices, l.source) && HasDevice(devices, l.target)
  }

  // ---------------------------------------------------------------------------
  // Removing a device
  // ---------------------------------------------------------------------------

  function NotNamed(id: string): Device -> bool
  {
    (d: Device) => d.id != id
  }

  function Detached(id: string): Link -> bool
  {
    (l: Link) => !Touches(l, id)
  }

  function Attached(id: string): Link -> bool
  {
    (l: Link) => Touches(l, id)
  }

  /** `devices.filter((d) => d.id !== id)` */
  function WithoutDevice(devices: seq<Device>, id: string): seq<Device>
  {
    Filter(devices, NotNamed(id))
  }

  /** `links.filter((l) => l.source !== id && l.target !== id)` */
  function WithoutIncidentLinks(links: seq<Link>, id: string): seq<Link>
  {
    Filter(links, Detached(id))
  }

  /**
   * Removal takes out exactly the device named `id` and the links touching
   * it, and keeps everything else in its original order: it distributes over
   * concatenation, and a single element stays iff it is unrelated to `id`.
   */
  lemma RemoveKeepsOthersInOrder(a: seq<Device>, b: seq<Device>, la: seq<Link>, lb: seq<Link>, id: string)
    ensures WithoutDevice(a + b, id) == WithoutDevice(a, id) + WithoutDevice(b, id)
    ensures WithoutIncidentLinks(la + lb, id) == WithoutIncidentLinks(la, id) + WithoutIncidentLinks(lb, id)
    ensures forall d :: WithoutDevice([d], id) == if d.id != id then [d] else []
    ensures forall l :: WithoutIncidentLinks([l], id) == if !Touches(l, id) then [l] else []
  {
    FilterConcat(a, b, NotNamed(id));
    FilterConcat(la, lb, Detached(id));
    forall d: Device ensures WithoutDevice([d], id) == if d.id != id then [d] else [] {
      FilterSingleton(d, NotNamed(id));
    }
    forall l: Link ensures WithoutIncidentLinks([l], id) == if !Touches(l, id) then [l] else [] {
      FilterSingleton(l, Detached(id));
    }
  }

  /** Removing the same id twice is removing it once. */
  lemma RemoveIdempotent(devices: seq<Device>, links: seq<Link>, id: string)
    ensures WithoutDevice(WithoutDevice(devices, id), id) == WithoutDevice(devices, id)
    ensures WithoutIncidentLinks(WithoutIncidentLinks(links, id), id) == WithoutIncidentLinks(links, id)
  {
    FilterIdempotent(devices, NotNamed(id));
    FilterIdempotent(links, Detached(id));
  }

  /** Removing an id no device has and no link touches changes neither list. */
  lemma RemoveAbsent(devices: seq<Device>, links: seq<Link>, id: string)
    requires forall d :: d in devices ==> d.id != id
    requires forall l :: l in links ==> !Touches(l, id)
    ensures WithoutDevice(devices, id) == devices
    ensures WithoutIncidentLinks(links, id) == links
  {
    FilterKeepsAll(devices, NotNamed(id));
    FilterKeepsAll(links, Detached(id));
  }

  /** Removal preserves referential integrity. */
  lemma RemovePreservesIntegrity(devices: seq<Device>, links: seq<Link>, id: string)
    requires LinksResolve(devices, links)
    ensures LinksResolve(WithoutDevice(devices, id), WithoutIncidentLinks(links, id))
  {
    var ds := WithoutDevice(devices, id);
    forall l | l in WithoutIncidentLinks(links, id)
      ensures HasDevice(ds, l.source) && HasDevice(ds, l.target)
    {
      var s :| s in devices && s.id == l.source;
      var t :| t in devices && t.id == l.target;
      assert s in ds && t in ds;
    }
  }

  // ---------------------------------------------------------------------------
  // Aggregates for the stats panel
  // ---------------------------------------------------------------------------

  function HasStatus(s: DeviceStatus): Device -> bool
  {
    (d: Device) => d.status == s
  }

  /** `devices.filter((d) => d.status === s).length` */
  function CountStatus(devices: seq<Device>, s: DeviceStatus): (n: nat)
    ensures n <= |devices|
    ensures n == 0 <==> forall i :: 0 <= i < |devices| ==> devices[i].status != s
  {
    var kept := Filter(devices, HasStatus(s));
    assert kept == [] ==> forall i :: 0 <= i < |devices| ==> devices[i].status != s by {
      forall i | 0 <= i < |devices| && devices[i].status == s
        ensures kept != []
      {
        assert devices[i] in devices && HasStatus(s)(devices[i]);
      }
    }
    assert kept != [] ==> exists i :: 0 <= i < |devices| && devices[i].status == s by {
      if kept != [] {
        assert kept[0] in kept;
        var i :| 0 <= i < |devices| && devices[i] == kept[0];
      }
    }
    |kept|
  }

  /** Every device is counted under exactly one of the three statuses. */
  lemma {:induction false} StatusCountsPartition(devices: seq<Device>)
    ensures CountStatus(devices, Up) + CountStatus(devices, Down) + CountStatus(devices, Warning) == |devices|
  {
    if devices != [] {
      StatusCountsPartition(devices[1..]);
    }
  }

  /** Appending a device adds one to its own status count and leaves the others alone. */
  lemma CountAfterAppend(devices: seq<Device>, d: Device, s: DeviceStatus)
    ensures CountStatus(devices + [d], s) == CountStatus(devices, s) + (if d.status == s then 1 else 0)
  {
    FilterConcat(devices, [d], HasStatus(s));
    FilterSingleton(d, HasStatus(s));
  }

  /** `links.reduce((sum, link) => sum + link.bandwidth, 0)` */
  function TotalBandwidth(links: seq<Link>): (total: real)
    ensures (forall i :: 0 <= i < |links| ==> links[i].bandwidth >= 0.0) ==> total >= 0.0
  {
    if links == [] then 0.0
    else TotalBandwidth(links[..|links| - 1]) + links[|links| - 1].bandwidth
  }

  lemma {:induction false} TotalBandwidthConcat(a: seq<Link>, b: seq<Link>)
    ensures TotalBandwidth(a + b) == TotalBandwidth(a) + TotalBandwidth(b)
  {
    if b == [] {
      assert a + b == a;
    } else {
      assert (a + b)[..|a + b| - 1] == a + b[..|b| - 1];
      TotalBandwidthConcat(a, b[..|b| - 1]);
    }
  }

  /** Removing a device lowers the total bandwidth by exactly that of its incident links. */
  lemma {:induction false} TotalBandwidthAfterRemove(links: seq<Link>, id: string)
    ensures TotalBandwidth(WithoutIncidentLinks(links, id)) + TotalBandwidth(Filter(links, Attached(id)))
         == TotalBandwidth(links)
  {
    if links != [] {
      var l := links[0];
      var rest := links[1..];
      assert links == [l] + rest;
      assert TotalBandwidth([l]) == l.bandwidth by {
        assert [l][..0] == [];
      }
      TotalBandwidthAfterRemove(rest, id);
      TotalBandwidthConcat([l], rest);
      if Touches(l, id) {
        assert Filter(links, Attached(id)) == [l] + Filter(rest, Attached(id));
        assert WithoutIncidentLinks(links, id) == WithoutIncidentLinks(rest, id);
        TotalBandwidthConcat([l], Filter(rest, Attached(id)));
      } else {
        assert Filter(links, Attached(id)) == Filter(rest, Attached(id));
        assert WithoutIncidentLinks(links, id) == [l] + WithoutIncidentLinks(rest, id);
        TotalBandwidthConcat([l], WithoutIncidentLinks(rest, id));
      }
    }
  }

  /** Each link's `(bandwidth / maxBandwidth) * 100`, in list order. */
  function Utilizations(links: seq<Link>): seq<JsNum>
  {
    seq(|links|, i requires 0 <= i < |links| => Utilization(links[i].bandwidth, links[i].maxBandwidth))
  }

  /** `reduce((sum, u) => sum + u, 0)` in JavaScript numbers, left to right. */
  function Sum(us: seq<JsNum>): JsNum
  {
    if us == [] then Finite(0.0) else Add(Sum(us[..|us| - 1]), us[|us| - 1])
  }

  /** `u / n` for a positive count `n`. */
  function DivideByCount(u: JsNum, n: nat): JsNum
    requires n > 0
  {
    match u
    case Finite(v) => Finite(v / n as real)
    case _ => u
  }

  /** A sum of finite values is finite: NaN and the infinities come only from a term. */
  lemma {:induction false} SumOfFinite(us: seq<JsNum>)
    requires forall i :: 0 <= i < |us| ==> us[i].Finite?
    ensures Sum(us).Finite?
  {
    if us != [] {
      SumOfFinite(us[..|us| - 1]);
    }
  }

  /**
   * `links.length > 0 ? sum(bandwidth / maxBandwidth * 100) / links.length : 0`:
   * 0 with no links, and a finite number whenever every capacity is positive.
   */
  function AvgUtilization(links: seq<Link>): (avg: JsNum)
    ensures links == [] ==> avg == Finite(0.0)
    ensures (forall i :: 0 <= i < |links| ==> links[i].maxBandwidth > 0.0) ==> avg.Finite?
  {
    var us := Utilizations(links);
    assert (forall i :: 0 <= i < |links| ==> links[i].maxBandwidth > 0.0) ==> Sum(us).Finite? by {
      if forall i :: 0 <= i < |links| ==> links[i].maxBandwidth > 0.0 {
        SumOfFinite(us);
      }
    }
    if |links| > 0 then DivideByCount(Sum(us), |links|) else Finite(0.0)
  }

  /** `n * x`, as n-fold addition. */
  function Scaled(n: nat, x: real): real
  {
    if n == 0 then 0.0 else Scaled(n - 1, x) + x
  }

  lemma {:induction false} ScaledIsProduct(n: nat, x: real)
    ensures Scaled(n, x) == n as real * x
  {
    if n > 0 {
      ScaledIsProduct(n - 1, x);
      assert n as real * x == (n - 1) as real * x + x;
    }
  }

  /** A sum of finite values in [lo, hi] is finite and lies between n-fold lo and n-fold hi. */
  lemma {:induction false} SumWithin(us: seq<JsNum>, lo: real, hi: real)
    requires forall i :: 0 <= i < |us| ==> us[i].Finite? && lo <= us[i].v <= hi
    ensures Sum(us).Finite?
    ensures Scaled(|us|, lo) <= Sum(us).v <= Scaled(|us|, hi)
  {
    if us != [] {
      SumWithin(us[..|us| - 1], lo, hi);
    }
  }

  /** A sum of n values in [lo, hi], divided by n, lies in [lo, hi]. */
  lemma MeanWithin(v: real, n: real, lo: real, hi: real)
    requires n > 0.0 && n * lo <= v <= n * hi
    ensures lo <= v / n <= hi
  {
    var q := v / n;
    assert q * n == v;
  }

  lemma DivideByCountWithin(u: JsNum, n: nat, lo: real, hi: real)
    requires n > 0 && u.Finite? && n as real * lo <= u.v <= n as real * hi
    ensures DivideByCount(u, n).Finite? && lo <= DivideByCount(u, n).v <= hi
  {
    MeanWithin(u.v, n as real, lo, hi);
  }

  /** The mean of finite values in [lo, hi] is finite and lies in [lo, hi]. */
  lemma MeanOfWithin(us: seq<JsNum>, lo: real, hi: real)
    requires us != []
    requires forall i :: 0 <= i < |us| ==> us[i].Finite? && lo <= us[i].v <= hi
    ensures DivideByCount(Sum(us), |us|).Finite?
    ensures lo <= DivideByCount(Sum(us), |us|).v <= hi
  {
    var u := Sum(us);
    var n := |us|;
    assert u.Finite? && n as real * lo <= u.v <= n as real * hi by {
      SumWithin(us, lo, hi);
      ScaledIsProduct(n, lo);
      ScaledIsProduct(n, hi);
    }
    DivideByCountWithin(u, n, lo, hi);
  }

  /** Every link's utilisation is a finite value in [lo, hi]. */
  predicate UtilizationsWithin(links: seq<Link>, lo: real, hi: real)
  {
    forall l :: l in links ==>
      l.maxBandwidth != 0.0 && lo <= l.bandwidth / l.maxBandwidth * 100.0 <= hi
  }

  lemma UtilizationWithin(l: Link, lo: real, hi: real)
    requires l.maxBandwidth != 0.0 && lo <= l.bandwidth / l.maxBandwidth * 100.0 <= hi
    ensures Utilization(l.bandwidth, l.maxBandwidth).Finite?
    ensures lo <= Utilization(l.bandwidth, l.maxBandwidth).v <= hi
  {
    var q := l.bandwidth / l.maxBandwidth;
    assert Utilization(l.bandwidth, l.maxBandwidth) == Finite(q * 100.0);
  }

  lemma UtilizationsInRange(links: seq<Link>, lo: real, hi: real)
    requires UtilizationsWithin(links, lo, hi)
    ensures |Utilizations(links)| == |links|
    ensures forall i :: 0 <= i < |links| ==>
      Utilizations(links)[i].Finite? && lo <= Utilizations(links)[i].v <= hi
  {
    var us := Utilizations(links);
    forall i | 0 <= i < |links| ensures us[i].Finite? && lo <= us[i].v <= hi {
      var l := links[i];
      assert l in links;
      UtilizationWithin(l, lo, hi);
    }
  }

  /**
   * With no links the average is 0; when every capacity is non-zero and
   * every utilisation lies in [lo, hi], the average is finite and lies in
   * [lo, hi] as well.
   */
  lemma AvgUtilizationWithin(links: seq<Link>, lo: real, hi: real)
    requires UtilizationsWithin(links, lo, hi)
    ensures links == [] ==> AvgUtilization(links) == Finite(0.0)
    ensures links != [] ==> AvgUtilization(links).Finite? && lo <= AvgUtilization(links).v <= hi
  {
    if links != [] {
      var us := Utilizations(links);
      UtilizationsInRange(links, lo, hi);
      MeanOfWithin(us, lo, hi);
      assert AvgUtilization(links) == DivideByCount(Sum(us), |us|);
    }
  }

  // ---------------------------------------------------------------------------
  // The page state
  // ---------------------------------------------------------------------------

  /** The five devices the page starts with. */
  function InitialDevices(): seq<Device>
  {
    [ Device("1", "Core Router", "192.168.1.1", 200.0, 350.0, Up, Router, "public", "45d 12h", 23, 45),
      Device("2", "Distribution Switch", "192.168.1.2", 500.0, 200.0, Up, Switch, "public", "30d 8h", 15, 32),
      Device("3", "Access Switch 1", "192.168.1.3", 800.0, 150.0, Warning, Switch, "public", "20d 4h", 67, 78),
      Device("4", "Web Server", "192.168.1.10", 1000.0, 350.0, Up, Server, "public", "15d 22h", 42, 56),
      Device("5", "Database Server", "192.168.1.11", 800.0, 550.0, Up, Server, "public", "60d 15h", 38, 62) ]
  }

  /** The four links the page starts with. */
  function InitialLinks(): seq<Link>
  {
    [ Link("l1", "1", "2", 450.5, 1000.0, Healthy),
      Link("l2", "2", "3", 750.2, 1000.0, LinkWarning),
      Link("l3", "3", "4", 320.8, 1000.0, Healthy),
      Link("l4", "3", "5", 890.5, 1000.0, Critical) ]
  }

  /** Both ends of every initial link name an initial device. */
  lemma InitialLinksResolve()
    ensures LinksResolve(InitialDevices(), InitialLinks())
  {
    var ds := InitialDevices();
    var ls := InitialLinks();
    forall i | 0 <= i < |ls| ensures HasDevice(ds, ls[i].source) && HasDevice(ds, ls[i].target) {
      var s, t := IdIndex(ls[i].source), IdIndex(ls[i].target);
      assert ds[s] in ds && ds[s].id == ls[i].source;
      assert ds[t] in ds && ds[t].id == ls[i].target;
    }
  }

  /** Where the initial device named by a link end sits: device "1" at 0, and so on. */
  function IdIndex(id: string): nat
  {
    if id == "1" then 0 else if id == "2" then 1 else if id == "3" then 2 else if id == "4" then 3 else 4
  }

  /** The values the page passes to the stats panel. */
  datatype Summary = Summary(
    totalDevices: nat,
    devicesUp: nat,
    devicesDown: nat,
    devicesWarning: nat,
    totalBandwidth: real,
    avgUtilization: JsNum)

  /** The page's two state lists. */
  class Dashboard {
    var devices: seq<Device>
    var links: seq<Link>

    ghost predicate Valid()
      reads this
    {
      LinksResolve(devices, links)
    }

    constructor ()
      ensures devices == InitialDevices() && links == InitialLinks()
      ensures Valid()
    {
      devices := InitialDevices();
      links := InitialLinks();
      new;
      InitialLinksResolve();
    }

    /** `handleAddDevice`: the new device goes at the end; nothing else changes. */
    method AddDevice(d: Device)
      requires Valid()
      modifies this
      ensures Valid()
      ensures devices == old(devices) + [d] && links == old(links)
    {
      devices := devices + [d];
      assert forall x :: x in old(devices) ==> x in devices;
    }

    /**
     * `handleRemoveDevice`: the device named `id` and every link touching it
     * go; every other device and link stays, in order.
     */
    method RemoveDevice(id: string)
      requires Valid()
      modifies this
      ensures Valid()
      ensures devices == WithoutDevice(old(devices), id)
      ensures links == WithoutIncidentLinks(old(links), id)
      ensures forall d :: d in devices <==> d in old(devices) && d.id != id
      ensures forall l :: l in links <==> l in old(links) && !Touches(l, id)
    {
      RemovePreservesIntegrity(devices, links, id);
      devices := WithoutDevice(devices, id);
      links := WithoutIncidentLinks(links, id);
    }

    /** The aggregates computed on every render. */
    method Summarize() returns (s: Summary)
      ensures s.totalDevices == |devices|
      ensures s.devicesUp + s.devicesDown + s.devicesWarning == s.totalDevices
      ensures s.devicesUp == CountStatus(devices, Up)
      ensures s.devicesDown == CountStatus(devices, Down)
      ensures s.devicesWarning == CountStatus(devices, Warning)
      ensures s.totalBandwidth == TotalBandwidth(links)
      ensures s.avgUtilization == AvgUtilization(links)
    {
      StatusCountsPartition(devices);
      s := Summary(
        |devices|,
        CountStatus(devices, Up),
        CountStatus(devices, Down),
        CountStatus(devices, Warning),
        TotalBandwidth(links),
        AvgUtilization(links));
    }
  }
}
