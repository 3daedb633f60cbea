/** The monitor page: the 24-reading telemetry window, the current
    readings, and the summaries shown beside them. Each `Math.random()` call
    is a parameter (a `Draw` holds the four the page makes per reading), and
    each clock-derived time label is a parameter too. */
module Monitor {
  import opened Wrappers

  datatype Reading = Reading(timestamp: string, foodLevel: real, waterLevel: real,
                             temperature: real, humidity: real)

  /** `currentReadings`: the same four values without a label. */
  datatype Levels = Levels(foodLevel: real, waterLevel: real, temperature: real, humidity: real)

  /** Four results of `Math.random()`, one per measured value. */
  datatype Draw = Draw(food: real, water: real, temperature: real, humidity: real)

  /** What `Math.random()` guarantees: every value in [0, 1). */
  predicate UnitDraw(d: Draw)
  {
    0.0 <= d.food < 1.0 && 0.0 <= d.water < 1.0 &&
    0.0 <= d.temperature < 1.0 && 0.0 <= d.humidity < 1.0
  }

  const InitialLevels := Levels(85.0, 92.0, 24.5, 65.0)

  const WindowSize: nat := 24

  /** One reading of the initial series: each value jittered around its
      nominal level. With genuine random draws the values stay within their
      jitter bands: food 80..90, water 89..95, temperature 23.5..25.5,
      humidity 60..70. */
  function InitialReading(stamp: string, d: Draw): (r: Reading)
    ensures r.timestamp == stamp
    ensures UnitDraw(d) ==>
      80.0 <= r.foodLevel < 90.0 && 89.0 <= r.waterLevel < 95.0 &&
      23.5 <= r.temperature < 25.5 && 60.0 <= r.humidity < 70.0
  {
    Reading(stamp, 85.0 + d.food * 10.0 - 5.0, 92.0 + d.water * 6.0 - 3.0,
            24.5 + d.temperature * 2.0 - 1.0, 65.0 + d.humidity * 10.0 - 5.0)
  }

  /** `generateData`: for i = 23 down to 0, push the reading labelled with
      the time i hours ago (`hoursAgo[i]`), using the draws of that push. */
  method GenerateData(hoursAgo: seq<string>, draws: seq<Draw>) returns (data: seq<Reading>)
    requires |hoursAgo| == WindowSize && |draws| == WindowSize
    ensures |data| == WindowSize
    ensures forall k :: 0 <= k < WindowSize ==> data[k] == InitialReading(hoursAgo[WindowSize - 1 - k], draws[k])
  {
    data := [];
    var i: int := WindowSize - 1;
    while i >= 0
      invariant -1 <= i < WindowSize
      invariant |data| == WindowSize - 1 - i
      invariant forall k :: 0 <= k < |data| ==> data[k] == InitialReading(hoursAgo[WindowSize - 1 - k], draws[k])
    {
      data := data + [InitialReading(hoursAgo[i], draws[|data|])];
      i := i - 1;
    }
  }

  /** `Math.max(0, x)`: the floor the food and water levels get. */
  function Floor0(x: real): (r: real)
    ensures r >= 0.0 && r >= x
    ensures x >= 0.0 ==> r == x
    ensures x <= 0.0 ==> r == 0.0
  {
    if x > 0.0 then x else 0.0
  }

  /** The floored value is the least one that is both non-negative and at
      least the input. */
  lemma Floor0Least(x: real, y: real)
    requires y >= 0.0 && y >= x
    ensures Floor0(x) <= y
  {
  }

  /** A larger input never gives a smaller floored value. */
  lemma Floor0Monotone(x: real, y: real)
    requires x <= y
    ensures Floor0(x) <= Floor0(y)
  {
  }

  /** The reading the interval appends, derived from the previous last one:
      food moves by up to one, water by up to a half, both floored at zero;
      temperature and humidity move freely. */
  function NextReading(last: Reading, stamp: string, d: Draw): (r: Reading)
    ensures r.foodLevel >= 0.0 && r.waterLevel >= 0.0
    ensures r.timestamp == stamp
  {
    Reading(stamp,
            Floor0(last.foodLevel + (d.food - 0.5) * 2.0),
            Floor0(last.waterLevel + (d.water - 0.5) * 1.0),
            last.temperature + (d.temperature - 0.5) * 0.5,
            last.humidity + (d.humidity - 0.5) * 2.0)
  }

  /** The `currentReadings` update: the same rule on the current values. */
  function NextLevels(l: Levels, d: Draw): (r: Levels)
    ensures r.foodLevel >= 0.0 && r.waterLevel >= 0.0
  {
    Levels(Floor0(l.foodLevel + (d.food - 0.5) * 2.0),
           Floor0(l.waterLevel + (d.water - 0.5) * 1.0),
           l.temperature + (d.temperature - 0.5) * 0.5,
           l.humidity + (d.humidity - 0.5) * 2.0)
  }

  function LevelsOf(r: Reading): Levels
  {
    Levels(r.foodLevel, r.waterLevel, r.temperature, r.humidity)
  }

  /** The window and the current readings follow one rule. */
  lemma SameRuleForWindowAndCurrent(last: Reading, stamp: string, d: Draw)
    ensures LevelsOf(NextReading(last, stamp, d)) == NextLevels(LevelsOf(last), d)
  {
  }

  /** With a genuine draw, a non-negative food level moves by at most one
      and a water level by at most a half per update. */
  lemma DriftBounded(l: Levels, d: Draw)
    requires UnitDraw(d) && l.foodLevel >= 0.0 && l.waterLevel >= 0.0
    ensures var n := NextLevels(l, d);
      l.foodLevel - 1.0 <= n.foodLevel < l.foodLevel + 1.0 &&
      l.waterLevel - 0.5 <= n.waterLevel < l.waterLevel + 0.5
  {
  }

  /** Only a floor is applied: levels can rise past 100, and temperature and
      humidity can fall below zero. */
  lemma NoCeilingNoTemperatureFloor()
    ensures NextLevels(Levels(100.0, 100.0, 0.0, 0.0), Draw(0.75, 0.75, 0.0, 0.0)) ==
            Levels(100.5, 100.25, -0.25, -1.0)
  {
  }

  ghost predicate LevelsNonNegative(s: seq<Reading>)
  {
    forall i :: 0 <= i < |s| ==> s[i].foodLevel >= 0.0 && s[i].waterLevel >= 0.0
  }

  /** The interval's window update: drop the oldest reading, append one
      derived from the newest. The source fails on a window shorter than two. */
  method RollWindow(prev: seq<Reading>, stamp: string, d: Draw) returns (next: seq<Reading>)
    requires |prev| >= 2
    ensures |next| == |prev|
    ensures next[..|prev| - 1] == prev[1..]
    ensures next[|prev| - 1] == NextReading(prev[|prev| - 1], stamp, d)
    ensures LevelsNonNegative(prev) ==> LevelsNonNegative(next)
  {
    next := prev[1..];
    var last := next[|next| - 1];
    next := next + [NextReading(last, stamp, d)];
  }

  /** The monitor's telemetry state once the page is mounted. */
  class MonitorPanel {
    var sensorData: seq<Reading>
    var current: Levels

    ghost predicate Valid()
      reads this
    {
      |sensorData| == WindowSize && LevelsNonNegative(sensorData) &&
      current.foodLevel >= 0.0 && current.waterLevel >= 0.0
    }

    /** Mounting runs `generateData` once. */
    constructor (hoursAgo: seq<string>, draws: seq<Draw>)
      requires |hoursAgo| == WindowSize && |draws| == WindowSize
      requires forall k :: 0 <= k < |draws| ==> UnitDraw(draws[k])
      ensures Valid()
      ensures forall k :: 0 <= k < WindowSize ==> sensorData[k] == InitialReading(hoursAgo[WindowSize - 1 - k], draws[k])
      ensures current == InitialLevels
    {
      var data := GenerateData(hoursAgo, draws);
      assert forall k :: 0 <= k < |data| ==> UnitDraw(draws[k]);
      sensorData := data;
      current := InitialLevels;
    }

    /** One run of the 30-second interval: the window rolls and the current
        readings move, each with its own draws. */
    method Tick(stamp: string, windowDraw: Draw, currentDraw: Draw)
      requires Valid()
      modifies this
      ensures Valid()
      ensures sensorData[..WindowSize - 1] == old(sensorData)[1..]
      ensures sensorData[WindowSize - 1] == NextReading(old(sensorData)[WindowSize - 1], stamp, windowDraw)
      ensures current == NextLevels(old(current), currentDraw)
    {
      sensorData := RollWindow(sensorData, stamp, windowDraw);
      current := NextLevels(current, currentDraw);
    }
  }

  // ------------------------------------------------------------ summaries

  datatype Trigger = Scheduled | Manual | FromApp

  datatype FeedingEvent = FeedingEvent(id: string, time: string, amount: int, duration: int,
                                       trigger: Trigger, success: bool)

  const InitialHistory := [
    FeedingEvent("1", "15:30", 5, 3, Scheduled, true),
    FeedingEvent("2", "12:00", 5, 3, Scheduled, true),
    FeedingEvent("3", "08:30", 5, 3, Scheduled, true),
    FeedingEvent("4", "22:15", 3, 2, Manual, true)
  ]

  /** `reduce((sum, event) => sum + event.amount, 0)`, folding from the left. */
  function TotalGrams(h: seq<FeedingEvent>): (t: int)
    ensures h == [] ==> t == 0
    ensures |h| == 1 ==> t == h[0].amount
    ensures (forall i :: 0 <= i < |h| ==> h[i].amount >= 0) ==> t >= 0
  {
    if h == [] then 0 else TotalGrams(h[..|h| - 1]) + h[|h| - 1].amount
  }

  /** The total of two stretches of history is the sum of their totals. */
  lemma {:induction false} TotalGramsAppend(a: seq<FeedingEvent>, b: seq<FeedingEvent>)
    ensures TotalGrams(a + b) == TotalGrams(a) + TotalGrams(b)
  {
    if b != [] {
      assert (a + b)[..|a + b| - 1] == a + b[..|b| - 1];
      TotalGramsAppend(a, b[..|b| - 1]);
    } else {
      assert a + b == a;
    }
  }

  /** With every meal between `lo` and `hi` grams, the total lies between
      `lo` and `hi` times the number of meals. */
  lemma {:induction false} TotalGramsBounds(h: seq<FeedingEvent>, lo: int, hi: int)
    requires forall i :: 0 <= i < |h| ==> lo <= h[i].amount <= hi
    ensures lo * |h| <= TotalGrams(h) <= hi * |h|
  {
    if h != [] {
      var init, n := h[..|h| - 1], |h| - 1;
      TotalGramsBounds(init, lo, hi);
      assert TotalGrams(h) == TotalGrams(init) + h[n].amount;
      assert lo * (n + 1) == lo * n + lo;
      assert hi * (n + 1) == hi * n + hi;
    }
  }

  datatype Summary = Summary(meals: nat, grams: int)

  /** The "today" summary: the number of meals and the grams they gave. */
  function DailySummary(h: seq<FeedingEvent>): (r: Summary)
    ensures r.meals == |h| && r.grams == TotalGrams(h)
  {
    Summary(|h|, TotalGrams(h))
  }

  /** The page's own history: four meals, eighteen grams. */
  lemma InitialSummary()
    ensures DailySummary(InitialHistory) == Summary(4, 18)
  {
    var h := InitialHistory;
    assert h[..1][..0] == [];
    assert TotalGrams(h[..1]) == 5;
    assert h[..2][..1] == h[..1];
    assert TotalGrams(h[..2]) == 10;
    assert h[..3][..2] == h[..2];
    assert TotalGrams(h[..3]) == 15;
    assert h[..3] == h[..|h| - 1];
  }

  datatype NotificationKind = Info | Warning | Error | Success

  datatype Notification = Notification(id: string, kind: NotificationKind, title: string,
                                       message: string, time: string, read: bool)

  /** `notifications.filter((n) => !n.read).length`. */
  function UnreadCount(ns: seq<Notification>): (c: nat)
    ensures c <= |ns|
    ensures c == 0 <==> forall i :: 0 <= i < |ns| ==> ns[i].read
    ensures c == |ns| <==> forall i :: 0 <= i < |ns| ==> !ns[i].read
  {
    if ns == [] then 0
    else (if ns[0].read then 0 else 1) + UnreadCount(ns[1..])
  }

  /** The count of a joined list is the sum of the counts of its parts. */
  lemma {:induction false} UnreadCountAppend(a: seq<Notification>, b: seq<Notification>)
    ensures UnreadCount(a + b) == UnreadCount(a) + UnreadCount(b)
  {
    if a == [] {
      assert a + b == b;
    } else {
      assert (a + b)[0] == a[0] && (a + b)[1..] == a[1..] + b;
      UnreadCountAppend(a[1..], b);
    }
  }

  /** The badge beside the title: the unread count, shown only when some
      notification is unread. */
  function UnreadBadge(ns: seq<Notification>): (b: Option<nat>)
    ensures b != None <==> exists i :: 0 <= i < |ns| && !ns[i].read
    ensures b != None ==> b.value == UnreadCount(ns) && 0 < b.value <= |ns|
  {
    var c := UnreadCount(ns);
    if c > 0 then Some(c) else None
  }

  const InitialNotifications := [
    Notification("1", Success, "การให้อาหารสำเร็จ", "ให้อาหารยูจิและลูน่าเสร็จสิ้น 5g", "15:30", false),
    Notification("2", Info, "ระบบออนไลน์", "ระบบเชื่อมต่อกับ IoT Platform แล้ว", "14:45", true),
    Notification("3", Warning, "ระดับอาหารลดลง", "ระดับอาหารเหลือ 85% ควรเติมเพิ่ม", "13:20", false)
  ]

  /** The page's own notifications show a badge of two. */
  lemma InitialBadge()
    ensures UnreadBadge(InitialNotifications) == Some(2)
  {
    var ns := InitialNotifications;
    assert ns[1..][1..][1..] == [];
  }

  datatype Trend = Up | Down | Stable

  /** The food card's trend arrow: down at 20 % or less. */
  function FoodTrend(level: real): (t: Trend)
    ensures t != Up
    ensures t == Down <==> level <= 20.0
  {
    if level > 20.0 then Stable else Down
  }

  /** The water card's trend arrow: down at 30 % or less. */
  function WaterTrend(level: real): (t: Trend)
    ensures t != Up
    ensures t == Down <==> level <= 30.0
  {
    if level > 30.0 then Stable else Down
  }

  /** The width of a card's bar, in percent. */
  function BarWidth(v: real): (w: real)
    ensures 0.0 <= w <= 100.0
    ensures 0.0 <= v <= 100.0 ==> w == v
    ensures v < 0.0 ==> w == 0.0
    ensures v > 100.0 ==> w == 100.0
  {
    var floored := if v > 0.0 then v else 0.0;
    if floored < 100.0 then floored else 100.0
  }

  /** A higher value never gives a narrower bar. */
  lemma BarWidthMonotone(v: real, u: real)
    requires v <= u
    ensures BarWidth(v) <= BarWidth(u)
  {
  }
}
