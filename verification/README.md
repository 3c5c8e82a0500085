# net-map-pro in Dafny

A model of the sequential rules of the net-map-pro network-monitoring dashboard. The dashboard has four parts, and each is modelled:

- **The simulated SNMP poll cycle** (`snmp_poll.dfy`, module `SnmpPoll`). `pollSNMP` fabricates a sample for one device from the last segment of its address and up to eight random draws (the second status draw is made only when the first one does not give up):
  - status: up nine times in ten;
  - uptime in days and hours;
  - cpu and memory as a base load plus jitter;
  - inbound and outbound traffic.

  The poll handler walks the device table. For each device it:
  - appends one stats row;
  - writes the mean of inbound and outbound traffic to every link touching the device;
  - re-tags that link with the 90/75 rule: critical above 90% utilisation, warning above 75%.

  The tables are sequences in a `Store` object. The inner link loop and the outer device loop are methods. Each method is proved against a replay function (`ApplyEffect`, `Replay`, `NewStats`).
- **The dashboard page** (`dashboard.dfy`, module `Dashboard`). A `Dashboard` object holds the device and link lists. Adding a device appends it. Removing a device filters it out and cascades to its links. The stats panel receives:
  - the three status counts;
  - the total link bandwidth;
  - the average utilisation.
- **The topology canvas** (`network_canvas.dfy`, module `NetworkCanvas`):
  - the 80/60 link colour rule;
  - which links are drawn: both ends must resolve to a device;
  - where the three traffic dots of a link sit for an animation frame;
  - the animation counter, modulo 360;
  - the mouse-down hit-test: the first device whose centre lies strictly within 30 of the point.
- **The add-device dialog** (`add_device_dialog.dfy`, module `AddDeviceDialog`). A form of four fields. Each edit changes one field. Submitting builds a device record at a random place with random load, resets the form and closes the dialog. Cancelling only closes it.

Shared entities are in `topology.dfy` (module `Topology`):
- devices and links;
- an order-preserving `Filter` (JavaScript's `Array.prototype.filter`);
- the arithmetic of utilisation, `bandwidth / maxBandwidth * 100`.

Utilisation is computed in a small model of JavaScript numbers (`JsNum`). A zero capacity gives Infinity, -Infinity or NaN, and every comparison with NaN is false. Both threshold rules are proved equivalent to division-free cross-multiplied comparisons. Where a JavaScript operator differs from Dafny's, it is written out:
- the truncating `%` in `(seed * 7) % 60`;
- `parseInt`'s leading-digit reading.

The two threshold pairs are modelled as written and not reconciled. The 90/75 pair is applied by the poller; the 80/60 pair by the canvas. `NetworkCanvas.ColourAtLeastPollTier` proves that the colour is never milder than the tag. `NetworkCanvas.SeedLinkTiers` shows that the fourth initial link does not satisfy the poll rule:
- it carries 890.5 of 1000 (89.05%) and is stored as critical;
- the poll rule would tag it as a warning.

So the seed link l4's stored tag differs from the tag the poll rule gives its throughput, and a link's tag is not always a function of its current utilisation. What is proved instead is that every link a poll has written to carries the poll rule's tag (`SnmpPoll.TouchedLinksFollowPollTier`).

## Model

| member | source | states |
|---|---|---|
| Topology.Filter | src/pages/Index.tsx:134-135 | The result holds exactly the input's elements that satisfy the predicate, and is no longer than the input |
| Topology.FilterConcat | src/pages/Index.tsx:134-135 | Filtering distributes over concatenation, so the kept elements stay in their original order |
| Topology.FilterSingleton | src/pages/Index.tsx:134-135 | A one-element list is kept whole exactly when its element satisfies the predicate |
| Topology.FilterKeepsAll | src/pages/Index.tsx:134-135 | When every element satisfies the predicate, filtering returns the list unchanged |
| Topology.FilterIdempotent | src/pages/Index.tsx:134-135 | Filtering twice with one predicate equals filtering once |
| Topology.UtilizationAbove | supabase/functions/snmp-poll/index.ts:108-112 | `utilization > c` holds iff `bw*100 > c*max` for a positive capacity, with the comparison flipped for a negative one; for a zero capacity, iff the throughput is positive (Infinity) |
| Topology.DecimalText | supabase/functions/snmp-poll/index.ts:39 | A number's decimal text is non-empty, all digits, and starts with '0' only for zero |
| SnmpPoll.Random | supabase/functions/snmp-poll/index.ts:31 | `random(min, max)` with a draw in [0, 1) is an integer in [min, max] |
| SnmpPoll.LastSegment | supabase/functions/snmp-poll/index.ts:34 | `split('.').pop()` has no '.', is a suffix of the address, and is preceded by '.' when shorter than the address |
| SnmpPoll.DigitPrefix | supabase/functions/snmp-poll/index.ts:34 | The digits `parseInt` reads: the longest all-digit prefix, stopped by a non-digit or the end |
| SnmpPoll.DigitPrefixStops | supabase/functions/snmp-poll/index.ts:34 | The digit prefix of digits followed by a non-digit (or nothing) is exactly those digits |
| SnmpPoll.DigitsValueOfDecimal | supabase/functions/snmp-poll/index.ts:34 | Reading back the decimal text of `n` gives `n` |
| SnmpPoll.ParseInt | supabase/functions/snmp-poll/index.ts:34 | `parseInt` gives NaN (None) for text not starting with a sign or a digit, a non-negative number for text starting with a digit, and never a positive number after a leading '-' |
| SnmpPoll.ParseIntNegative | supabase/functions/snmp-poll/index.ts:34 | `parseInt` of '-' followed by a number's decimal text, optionally followed by a non-digit, is minus that number |
| SnmpPoll.ParseIntDecimal | supabase/functions/snmp-poll/index.ts:34 | `parseInt` of a number's decimal text, optionally followed by a non-digit, is that number |
| SnmpPoll.LastSegmentAfterDot | supabase/functions/snmp-poll/index.ts:34 | The last segment of `prefix + "." + s` is `s` for any dot-free `s`, whatever the prefix |
| SnmpPoll.Seed | supabase/functions/snmp-poll/index.ts:34 | An address with an empty last segment has seed 1 (the `'1'` fallback), and one whose last segment starts with a digit has a non-negative seed |
| SnmpPoll.SeedOfDecimalSuffix | supabase/functions/snmp-poll/index.ts:34 | The seed of any address ending in `.<n>` is `n` |
| SnmpPoll.JsRem | supabase/functions/snmp-poll/index.ts:35 | JavaScript's `%`: the remainder has the dividend's sign, is smaller than the divisor in magnitude, and differs from the dividend by a multiple of the divisor |
| SnmpPoll.BaseLoad | supabase/functions/snmp-poll/index.ts:35 | `(seed*7) % 60` is in [0, 59] for a non-negative seed and in [-59, 0] for a negative one, and is congruent to `seed*7` modulo 60 |
| SnmpPoll.BaseLoadExample | supabase/functions/snmp-poll/index.ts:34-35 | An address ending in ".9" has seed 9 and base load 3 |
| SnmpPoll.DrawStatus | supabase/functions/snmp-poll/index.ts:38 | Up iff the first draw is at least 0.1. Otherwise warning iff the second draw is at least 0.5, and down iff it is below 0.5 |
| SnmpPoll.PollSnmp | supabase/functions/snmp-poll/index.ts:27-59 | A null address gives the catch-branch sample. Otherwise the sample has: days 1..90, hours 0..23, in/out in [100, 900], cpu in [load-5, load+15] and memory in [load, load+20] when the seed parses, NaN (None) cpu and memory exactly when it does not |
| SnmpPoll.PolledBandwidthInRange | supabase/functions/snmp-poll/index.ts:107 | For a device with an address, the throughput written to links, the mean of in and out, lies in [100, 900] |
| SnmpPoll.PollTier | supabase/functions/snmp-poll/index.ts:108-112 | For a positive capacity: critical iff `bw*100 > 90*max`, warning iff `75*max < bw*100 <= 90*max`, healthy iff `bw*100 <= 75*max`. For a zero capacity: critical iff bw > 0, never warning |
| SnmpPoll.PollTierMonotone | supabase/functions/snmp-poll/index.ts:108-112 | For a fixed non-negative capacity, more throughput never gives a milder tag |
| SnmpPoll.PollEffects | supabase/functions/snmp-poll/index.ts:82-107 | One link effect per device, in device order, each naming its device and carrying the mean throughput of its sample, whether its links query succeeded and the ids whose update was refused |
| SnmpPoll.ReplayFrame | supabase/functions/snmp-poll/index.ts:114-117 | A poll changes only a link's bandwidth and status, and leaves a link unchanged when no polled device writes to it |
| SnmpPoll.ReplayLastWriter | supabase/functions/snmp-poll/index.ts:82-118 | A link ends with the values of the last device in iteration order that writes to it, so when both ends are polled the later one wins |
| SnmpPoll.TouchedLinksFollowPollTier | supabase/functions/snmp-poll/index.ts:106-117 | Every link a poll wrote to carries the 90/75 tag of its current bandwidth and capacity |
| SnmpPoll.NewStatsAtMost | supabase/functions/snmp-poll/index.ts:86-98 | A poll adds at most one stats row per device, whatever inserts fail |
| SnmpPoll.NewStatsOnePerDevice | supabase/functions/snmp-poll/index.ts:86-98 | With no failed insert, a poll adds exactly one stats row per device, in device order, each holding that device's id, status, uptime text, cpu and memory from its sample |
| SnmpPoll.Store.UpdateIncidentLinks | supabase/functions/snmp-poll/index.ts:101-118 | The inner loop writes the throughput and its tag to every link touching the device, except updates the store refuses. Nothing else changes |
| SnmpPoll.Store.PollDevice | supabase/functions/snmp-poll/index.ts:83-118 | One pass of the device loop: the device's stats row is appended unless its insert fails, the links become the device's effect applied to them, and the device table is unchanged |
| SnmpPoll.Store.PollAll | supabase/functions/snmp-poll/index.ts:80-118 | Polling every device in table order appends, in device order, the stats row of each device whose insert succeeds and leaves the links equal to the device-order replay of every device's effect; the device table is unchanged |
| SnmpPoll.Store.Serve | supabase/functions/snmp-poll/index.ts:66-131 | A device-fetch error gives status 500 and no table change; its payload is the error's message when the thrown value is an `Error`, and "Unknown error" otherwise. Otherwise it gives 200 with `polled` equal to the device count, the stats rows appended in device order, and the links equal to the device-order replay of every device's effect |
| Dashboard.RemoveKeepsOthersInOrder | src/pages/Index.tsx:133-136 | Removal distributes over concatenation of both lists, and a single device or link survives iff it is unrelated to the id, so every other device and link stays, in order |
| Dashboard.RemoveIdempotent | src/pages/Index.tsx:133-136 | Removing the same id twice is removing it once |
| Dashboard.RemoveAbsent | src/pages/Index.tsx:133-136 | Removing an id that no device has and no link touches changes neither list |
| Dashboard.RemovePreservesIntegrity | src/pages/Index.tsx:133-136 | If every link's ends named a device before a removal, they still do after it |
| Dashboard.CountStatus | src/pages/Index.tsx:138-140 | A status count is at most the number of devices, and is 0 exactly when no device has that status |
| Dashboard.StatusCountsPartition | src/pages/Index.tsx:138-140 | up + down + warning counts equal the number of devices |
| Dashboard.CountAfterAppend | src/pages/Index.tsx:138-140 | Appending a device adds one to its own status count and leaves the other counts alone |
| Dashboard.TotalBandwidth | src/pages/Index.tsx:141 | The total bandwidth of links with non-negative bandwidths is non-negative |
| Dashboard.TotalBandwidthConcat | src/pages/Index.tsx:141 | The bandwidth sum of two concatenated lists is the sum of their sums |
| Dashboard.TotalBandwidthAfterRemove | src/pages/Index.tsx:141 | Removing a device lowers the total bandwidth by exactly the bandwidth of its incident links |
| Dashboard.SumWithin | src/pages/Index.tsx:143 | A sum of n finite utilisations each in [lo, hi] is finite and lies between n-fold lo and n-fold hi |
| Dashboard.SumOfFinite | src/pages/Index.tsx:143 | The JavaScript-number sum of finite utilisations is finite: NaN and the infinities come only from a term |
| Dashboard.MeanOfWithin | src/pages/Index.tsx:143-144 | The sum of a non-empty list of finite values in [lo, hi], divided by the list's length, is finite and lies in [lo, hi] |
| Dashboard.AvgUtilization | src/pages/Index.tsx:142-144 | The average is 0 with no links, and a finite number (no NaN or Infinity) whenever every capacity is positive |
| Dashboard.AvgUtilizationWithin | src/pages/Index.tsx:142-144 | The average is 0 with no links. With links whose capacities are non-zero and utilisations lie in [lo, hi], it is finite and lies in [lo, hi] |
| Dashboard.InitialLinksResolve | src/pages/Index.tsx:26-127 | Both ends of every seed link name a seed device |
| Dashboard.Dashboard.constructor | src/pages/Index.tsx:26-127 | The page starts with the five seed devices and four seed links, and every link's ends name a device |
| Dashboard.Dashboard.AddDevice | src/pages/Index.tsx:129-131 | The new device goes at the end, earlier devices and the links are unchanged, and link integrity is kept |
| Dashboard.Dashboard.RemoveDevice | src/pages/Index.tsx:133-136 | The device named `id` and every link touching it go. Every other device and link stays, in order, and link integrity is kept |
| Dashboard.Dashboard.Summarize | src/pages/Index.tsx:138-144 | The panel's values: the status counts summing to the device count, the bandwidth total and the average utilisation |
| NetworkCanvas.FirstIndex | src/components/NetworkCanvas.tsx:59-60 | `find` stops at the first matching element: it matches and no earlier element does |
| NetworkCanvas.FindFirst | src/components/NetworkCanvas.tsx:145-148 | `find` returns nothing iff no element matches, and otherwise returns the first match |
| NetworkCanvas.FindDeviceResolves | src/components/NetworkCanvas.tsx:59-62 | An endpoint resolves iff some device has that id, and it resolves to a device with that id |
| NetworkCanvas.ColourTier | src/components/NetworkCanvas.tsx:64-67 | For a positive capacity: red iff `bw*100 > 80*max`, orange iff `60*max < bw*100 <= 80*max`, green iff `bw*100 <= 60*max`. For a zero capacity: red iff bw > 0, never orange |
| NetworkCanvas.ColourTierMonotone | src/components/NetworkCanvas.tsx:64-67 | For a fixed non-negative capacity, more throughput never gives a milder colour |
| NetworkCanvas.ColourAtLeastPollTier | src/components/NetworkCanvas.tsx:66-67 | On every input, a poll-critical link is drawn red and a poll-warning link orange or red |
| NetworkCanvas.SeedLinkTiers | src/pages/Index.tsx:119-126 | Seed link l4 is stored critical and drawn red, but the poll rule gives its throughput the warning tag |
| NetworkCanvas.Frac | src/components/NetworkCanvas.tsx:84 | `x % 1` of a non-negative x is in [0, 1) and differs from x by an integer |
| NetworkCanvas.DotOffset | src/components/NetworkCanvas.tsx:81 | The offset `(frame % 10) / 10` is in [0, 0.9] and is a whole number of tenths |
| NetworkCanvas.DotParams | src/components/NetworkCanvas.tsx:83-84 | There are three dot parameters, each in [0, 1) |
| NetworkCanvas.AlongWithin | src/components/NetworkCanvas.tsx:85-86 | A point a fraction t in [0, 1) along a segment lies between its ends |
| NetworkCanvas.DotsOnLine | src/components/NetworkCanvas.tsx:77-94 | Every traffic dot of a drawn link lies in the bounding box of the link's line |
| NetworkCanvas.StrokesOfResolvable | src/components/NetworkCanvas.tsx:58-62 | Exactly the links whose two ends resolve are drawn, once each and in list order |
| NetworkCanvas.Strokes | src/components/NetworkCanvas.tsx:58-94 | The link pass draws at most one stroke per link, each with three traffic dots |
| NetworkCanvas.AllLinksDrawnWhenResolved | src/components/NetworkCanvas.tsx:58-62 | Under the page's link integrity, every link is drawn, in order |
| NetworkCanvas.SquaredComparison | src/components/NetworkCanvas.tsx:146-147 | For distance d >= 0 with d*d = sq, `d < 30` iff `sq < 900`. So comparing squares decides the same, and distance exactly 30 is a miss |
| NetworkCanvas.HitTest | src/components/NetworkCanvas.tsx:145-148 | A hit is one of the listed devices, and its centre lies strictly within 30 of the point |
| NetworkCanvas.HitTestFirst | src/components/NetworkCanvas.tsx:145-148 | A click selects the first device, in list order, whose centre lies strictly within 30 of the point, and nothing when there is none |
| NetworkCanvas.NextFrame | src/components/NetworkCanvas.tsx:41 | The next frame is below 360. It is the successor below 359, and 359 wraps to 0 |
| NetworkCanvas.FramesAdvance | src/components/NetworkCanvas.tsx:40-44 | From a frame in range, n ticks give `(frame + n) % 360` |
| NetworkCanvas.CanvasState.constructor | src/components/NetworkCanvas.tsx:30-31 | The counter starts at 0 with no dragged device |
| NetworkCanvas.CanvasState.Tick | src/components/NetworkCanvas.tsx:41 | A tick keeps the counter in [0, 359], advances it modulo 360, and leaves the dragged device alone |
| NetworkCanvas.CanvasState.MouseDown | src/components/NetworkCanvas.tsx:137-154 | On a hit, the dragged device becomes the hit device's id and that device is handed to the callback. On a miss nothing changes and no device is handed on |
| NetworkCanvas.CanvasState.DrawLinks | src/components/NetworkCanvas.tsx:58-103 | The link pass of the draw effect produces the strokes of `Strokes` at the current frame |
| AddDeviceDialog.NewDevice | src/components/AddDeviceDialog.tsx:37-46 | The record copies name, ip, type and community from the form, with status up and uptime "0d 0h". Its id is the clock's decimal text, x in [300, 700), y in [200, 500), cpu the floor of 60 times its draw in [0, 59], memory the floor of 80 times its draw in [0, 79] |
| AddDeviceDialog.SubmittedDeviceCountsAsUp | src/components/AddDeviceDialog.tsx:42 | Once the page appends a submitted device, the up count rises by one and the down and warning counts are unchanged |
| AddDeviceDialog.DeviceDialog.constructor | src/components/AddDeviceDialog.tsx:28-33 | The form starts as name "", ip "", type router, community "public", and the dialog is closed |
| AddDeviceDialog.DeviceDialog.Open | src/pages/Index.tsx:173 | Opening the dialog keeps the form's contents |
| AddDeviceDialog.DeviceDialog.SetName | src/components/AddDeviceDialog.tsx:74 | Editing the name changes only the name |
| AddDeviceDialog.DeviceDialog.SetIp | src/components/AddDeviceDialog.tsx:86 | Editing the address changes only the address |
| AddDeviceDialog.DeviceDialog.SetKind | src/components/AddDeviceDialog.tsx:96 | Choosing a type changes only the type |
| AddDeviceDialog.DeviceDialog.SetCommunity | src/components/AddDeviceDialog.tsx:115 | Editing the community changes only the community |
| AddDeviceDialog.DeviceDialog.Submit | src/components/AddDeviceDialog.tsx:35-54 | With name or ip empty (required inputs), nothing is emitted and nothing changes. Otherwise the new record is emitted, the form is back to its defaults and the dialog is closed |
| AddDeviceDialog.DeviceDialog.Cancel | src/components/AddDeviceDialog.tsx:122 | Cancel closes the dialog, emits nothing and keeps the form's contents |

## Left out

- The SNMP object identifiers (supabase/functions/snmp-poll/index.ts:18-25) are declared but never used; no SNMP semantics are modelled.
- The hosted database client is not modelled, and neither are the HTTP `serve` plumbing, the CORS headers, the OPTIONS preflight, environment configuration and console logging. The tables are sequences in `SnmpPoll.Store`. The value the device fetch throws (an `Error` or not), each failed stats insert, each failed links query and each refused link update are parameters of `Serve`.
- `Math.random`, `Date.now` and `Math.sqrt` are not modelled. Random draws are parameters in [0, 1), one per `random` call, named by the call. The clock reading is a parameter. The hit-test compares squared distances, which `NetworkCanvas.SquaredComparison` justifies.
- Floating point is not modelled. Numbers are exact reals, apart from the Infinity/NaN cases of a division by zero. Rounding, `-0` and `toFixed` are not modelled.
- SnmpPoll.ParseInt reads an optional sign and leading decimal digits, and gives NaN (`None`) otherwise. Leading whitespace, the `0x` prefix and the precision loss of very long digit strings are not modelled.
- SnmpPoll.PollSnmp: the SNMP community is not a parameter, because the source ignores it. Only the null address reaches the catch branch.
- Link rows are updated by their position in the table; link ids are assumed unique, as the table's key. The order in which the store returns a device's links is not modelled. Each link touching the device is updated once, and updates to distinct links commute.
- The `timestamp` column of the stats history is not modelled (it is filled by the store).
- NetworkCanvas.HitTest: the click point is the offset from the canvas's top-left corner in CSS pixels (NetworkCanvas.tsx:141-143), compared unscaled with device centres in the canvas's own 1200×700 pixels. The canvas is stretched to full width (NetworkCanvas.tsx:160-162), so the tested circle coincides with the drawn one only when the canvas is shown 1200 CSS pixels wide. The model makes the same unscaled comparison and does not model the page layout.
- The canvas drawing is not modelled: device circles, the icons, the names, the bandwidth label and the clearing of the canvas. Neither are the `setInterval` timer, the React effects and subscriptions, and the JSX. Only the link pass is modelled, as the strokes it would draw: the line, the colour and the three dot positions.
- The `distance` value at src/components/NetworkCanvas.tsx:79 is computed but never used.
- `onDeviceClick` is optional and the page does not pass it. `MouseDown` returns the clicked device instead of calling a callback.
- The device and stats panels are presentation only: src/components/DevicePanel.tsx and src/components/StatsPanel.tsx are not part of this model.
- The browser's `required` check on the name and address inputs is modelled as rejecting only the empty string.
- The dialog's `open` flag belongs to the page; here it is a field of `DeviceDialog`.
- Concurrency between poll runs, and between the page and the poller, is not modelled.
