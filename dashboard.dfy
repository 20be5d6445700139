/**
 * The live dashboard: the alert-count bar series, the collector dropdown, the
 * range table, the quiet-period rule for silent refreshes on push events, the
 * count display suffix and navigation within the latest unresolved alerts.
 */
module Dashboard {
  import opened Common
  import opened Ordering

  /** Push events refresh silently only after this many milliseconds without an update. */
  const QuietPeriod: int := 60 * 1000

  datatype GroupBy = ByHour | ByDay

  /** One row of the alert-count query: a time bucket, its risk (possibly null) and a count. */
  datatype AlertCountRow = AlertCountRow(hour: int, date: int, risk: Option<string>, count: int)

  /** One bar of the alert-count chart. */
  datatype Bar = Bar(x: int, y: int, color: string)

  datatype CollectorStatus = Connected | Disconnected | OtherStatus

  datatype Collector = Collector(id: int, name: string, status: CollectorStatus)

  datatype LabelColor = Green | Red

  /** One entry of the collector dropdown. */
  datatype DropdownOption = DropdownOption(key: int, text: string, value: int, color: LabelColor)

  /** The device-store queries `updateRange` issues beside the alert count. */
  datatype DeviceQuery = NewDevices | Packets | QuarantineGrouped | QuarantineTotal

  /** An alert-count query in flight, with the grouping its callback uses. */
  datatype AlertsRequest = AlertsRequest(groupBy: GroupBy)

  datatype Suffix = NoSuffix | Thousands | Millions

  // ---------------------------------------------------------------------------
  // Range table

  /**
   * Buckets of the preset's grouping (hours for a day, days otherwise) from
   * the start of the chart's domain to now: a day and one hour, eight days,
   * and a month and one day, taking a month of 31 days.
   */
  function DomainBefore(r: Range): nat
  {
    match r
    case Day => 24 + 1
    case Week => 7 + 1
    case Month => 31 + 1
  }

  /** Buckets from now to the end of the chart's domain: one hour or one day. */
  function DomainAfter(r: Range): nat
  {
    1
  }

  /**
   * Grouping and bar count of a preset: hourly buckets only for the last day,
   * and one bar for every bucket of the chart's domain.
   */
  function RangeTable(r: Range): (t: (GroupBy, nat))
    ensures t.0 == ByHour <==> r == Day
    ensures t.1 == DomainBefore(r) + DomainAfter(r)
  {
    match r
    case Day => (ByHour, 26)
    case Week => (ByDay, 9)
    case Month => (ByDay, 33)
  }

  // ---------------------------------------------------------------------------
  // Alert-count series

  predicate HasRisk(row: AlertCountRow) { row.risk.Some? }
  predicate NullRisk(row: AlertCountRow) { row.risk.None? }

  /** Sum of the rows' counts (`reduce((a, b) => a + b, 0)`). */
  function SumCounts(rows: seq<AlertCountRow>): int
  {
    if |rows| == 0 then 0 else rows[0].count + SumCounts(rows[1..])
  }

  function BarOf(row: AlertCountRow, groupBy: GroupBy, colorOf: string -> string): Bar
    requires row.risk.Some?
  {
    Bar(if groupBy == ByHour then row.hour else row.date, row.count, colorOf(row.risk.value))
  }

  /** Rows with a risk and rows without one together make up all the counts. */
  lemma {:induction false} SumCountsSplit(rows: seq<AlertCountRow>)
    ensures SumCounts(Filter(rows, HasRisk)) + SumCounts(Filter(rows, NullRisk)) == SumCounts(rows)
  {
    if |rows| > 0 {
      SumCountsSplit(rows[1..]);
      var f, g := Filter(rows, HasRisk), Filter(rows, NullRisk);
      if rows[0].risk.Some? {
        assert f[1..] == Filter(rows[1..], HasRisk);
        assert g == Filter(rows[1..], NullRisk);
      } else {
        assert f == Filter(rows[1..], HasRisk);
        assert g[1..] == Filter(rows[1..], NullRisk);
      }
    }
  }

  /**
   * `getAlerts`' answer: rows with a null risk are dropped, each remaining row
   * becomes one bar, and the alert total is the sum of the remaining counts.
   */
  method AlertsCountSeries(rows: seq<AlertCountRow>, groupBy: GroupBy, colorOf: string -> string)
    returns (bars: seq<Bar>, alertsCount: int)
    ensures var kept := Filter(rows, HasRisk);
            |bars| == |kept| && forall j :: 0 <= j < |kept| ==> bars[j] == BarOf(kept[j], groupBy, colorOf)
    ensures |bars| + CountWhere(rows, NullRisk) == |rows|
    ensures alertsCount == SumCounts(Filter(rows, HasRisk))
    ensures alertsCount + SumCounts(Filter(rows, NullRisk)) == SumCounts(rows)
  {
    var filtered := Filter(rows, HasRisk);
    bars := [];
    var i := 0;
    while i < |filtered|
      invariant 0 <= i <= |filtered| && |bars| == i
      invariant forall j :: 0 <= j < i ==> bars[j] == BarOf(filtered[j], groupBy, colorOf)
    {
      bars := bars + [BarOf(filtered[i], groupBy, colorOf)];
      i := i + 1;
    }
    alertsCount := SumCounts(filtered);
    SumCountsSplit(rows);
    RiskCountsSplit(rows);
  }

  /** Every row either has a risk or has none. */
  lemma {:induction false} RiskCountsSplit(rows: seq<AlertCountRow>)
    ensures CountWhere(rows, HasRisk) + CountWhere(rows, NullRisk) == |rows|
  {
    if |rows| > 0 {
      RiskCountsSplit(rows[1..]);
    }
  }

  // ---------------------------------------------------------------------------
  // Collector dropdown

  predicate IsConnected(c: Collector) { c.status == Connected }
  predicate IsListed(c: Collector) { c.status == Connected || c.status == Disconnected }
  predicate IsGreen(o: DropdownOption) { o.color == Green }
  function NameOf(c: Collector): string { c.name }

  function OptionOf(c: Collector): DropdownOption
  {
    DropdownOption(c.id, c.name, c.id, if c.status == Connected then Green else Red)
  }

  /** Number of connected collectors. */
  function ActiveCollectors(cs: seq<Collector>): nat
  {
    CountWhere(cs, IsConnected)
  }

  function OptionsOf(s: seq<Collector>): (r: seq<DropdownOption>)
    ensures |r| == |s| && forall i :: 0 <= i < |s| ==> r[i] == OptionOf(s[i])
  {
    seq(|s|, i requires 0 <= i < |s| => OptionOf(s[i]))
  }

  /** The dropdown: connected and disconnected collectors, sorted by name. */
  function DropdownOptions(cs: seq<Collector>): seq<DropdownOption>
  {
    OptionsOf(SortBy(Filter(cs, IsListed), NameOf))
  }

  lemma {:induction false} GreenCount(s: seq<Collector>)
    ensures CountWhere(OptionsOf(s), IsGreen) == CountWhere(s, IsConnected)
  {
    if |s| > 0 {
      GreenCount(s[1..]);
      assert OptionsOf(s)[1..] == OptionsOf(s[1..]);
    }
  }

  lemma {:induction false} ListedKeepsConnected(cs: seq<Collector>)
    ensures CountWhere(Filter(cs, IsListed), IsConnected) == CountWhere(cs, IsConnected)
  {
    if |cs| > 0 {
      ListedKeepsConnected(cs[1..]);
      var f := Filter(cs, IsListed);
      if IsListed(cs[0]) {
        assert f == [cs[0]] + Filter(cs[1..], IsListed);
        assert f[0] == cs[0] && f[1..] == Filter(cs[1..], IsListed);
      } else {
        assert f == Filter(cs[1..], IsListed);
        assert !IsConnected(cs[0]);
      }
    }
  }

  /** The dropdown is in name order and each option's key and value are the collector id. */
  lemma DropdownSorted(cs: seq<Collector>)
    ensures var opts := DropdownOptions(cs);
      && |opts| == CountWhere(cs, IsListed)
      && (forall i, j :: 0 <= i < j < |opts| ==> LexLe(opts[i].text, opts[j].text))
      && (forall i :: 0 <= i < |opts| ==> opts[i].key == opts[i].value)
  {
    var listed := Filter(cs, IsListed);
    SortBySorted(listed, NameOf);
  }

  /** The dropdown holds exactly the connected and disconnected collectors. */
  lemma DropdownMembers(cs: seq<Collector>)
    ensures var opts := DropdownOptions(cs);
      && (forall i :: 0 <= i < |opts| ==> exists c :: c in cs && IsListed(c) && opts[i] == OptionOf(c))
      && (forall c :: c in cs && IsListed(c) ==> OptionOf(c) in opts)
  {
    var listed := Filter(cs, IsListed);
    var sorted := SortBy(listed, NameOf);
    var opts := OptionsOf(sorted);
    forall i | 0 <= i < |opts| ensures exists c :: c in cs && IsListed(c) && opts[i] == OptionOf(c) {
      assert sorted[i] in multiset(sorted);
      assert sorted[i] in listed;
    }
    forall c | c in cs && IsListed(c) ensures OptionOf(c) in opts {
      assert c in listed;
      assert c in multiset(sorted);
      var k :| 0 <= k < |sorted| && sorted[k] == c;
      assert opts[k] == OptionOf(c);
    }
  }

  /** The options of a list with `c` in front: `c`'s option and the rest's options. */
  lemma OptionsOfCons(c: Collector, s: seq<Collector>)
    ensures multiset(OptionsOf([c] + s)) == multiset{OptionOf(c)} + multiset(OptionsOf(s))
  {
    assert OptionsOf([c] + s) == [OptionOf(c)] + OptionsOf(s);
  }

  /** Inserting a collector by name adds its option to the options, whatever the position. */
  lemma {:induction false} OptionsOfInsert(c: Collector, s: seq<Collector>)
    ensures multiset(OptionsOf(Insert(c, s, NameOf))) == multiset(OptionsOf(s)) + multiset{OptionOf(c)}
  {
    if |s| == 0 {
      OptionsOfCons(c, []);
    } else if LexLe(c.name, s[0].name) {
      OptionsOfCons(c, s);
    } else {
      assert s == [s[0]] + s[1..];
      OptionsOfInsert(c, s[1..]);
      OptionsOfCons(s[0], Insert(c, s[1..], NameOf));
      OptionsOfCons(s[0], s[1..]);
    }
  }

  /** Sorting the collectors by name only reorders their options. */
  lemma {:induction false} OptionsOfSortBy(s: seq<Collector>)
    ensures multiset(OptionsOf(SortBy(s, NameOf))) == multiset(OptionsOf(s))
  {
    if |s| > 0 {
      assert s == [s[0]] + s[1..];
      OptionsOfSortBy(s[1..]);
      OptionsOfInsert(s[0], SortBy(s[1..], NameOf));
      OptionsOfCons(s[0], s[1..]);
    }
  }

  /** Each connected or disconnected collector appears in the dropdown exactly as often as in the answer. */
  lemma DropdownPermutes(cs: seq<Collector>)
    ensures multiset(DropdownOptions(cs)) == multiset(OptionsOf(Filter(cs, IsListed)))
  {
    OptionsOfSortBy(Filter(cs, IsListed));
  }

  /** The green options are exactly the connected collectors: their number is the active count. */
  lemma DropdownGreen(cs: seq<Collector>)
    ensures CountWhere(DropdownOptions(cs), IsGreen) == ActiveCollectors(cs)
    ensures ActiveCollectors(cs) <= |DropdownOptions(cs)|
  {
    var listed := Filter(cs, IsListed);
    var sorted := SortBy(listed, NameOf);
    GreenCount(sorted);
    SortByCount(listed, NameOf, IsConnected);
    ListedKeepsConnected(cs);
  }

  // ---------------------------------------------------------------------------
  // Count display

  function SuffixRank(s: Suffix): nat
  {
    match s
    case NoSuffix => 0
    case Thousands => 1
    case Millions => 2
  }

  /**
   * The suffix the header shows a count with: none below 1000, "K" up to a
   * million, "M" beyond; the value shown before the suffix is then at least 1,
   * and below 1000 for "K".
   */
  function CountSuffix(n: int): (s: Suffix)
    ensures s == NoSuffix <==> n < 1000
    ensures s == Thousands ==> 1 <= n / 1000 < 1000
    ensures s == Millions ==> 1 <= n / 1000000
  {
    if n != 0 && n >= 1000 && n < 1000000 then Thousands
    else if n != 0 && n >= 1000000 then Millions
    else NoSuffix
  }

  /** A larger count never gets a smaller suffix. */
  lemma SuffixMonotone(a: int, b: int)
    requires a <= b
    ensures SuffixRank(CountSuffix(a)) <= SuffixRank(CountSuffix(b))
  {
  }

  // ---------------------------------------------------------------------------
  // The view

  class Dashboard {
    var range: Range
    var barsCount: nat
    var lastUpdated: int
    var isLoading: bool
    var newDevicesLoading: bool
    var packetsLoading: bool
    var quarantineCountLoading: bool
    var quarantineDeviceCountLoading: bool
    var alertsCountLoading: bool
    var topAlertsLoading: bool
    var alertsCountArray: seq<Bar>
    /** Alerts in the window (null before the first answer, read as 0). */
    var alertsCount: int
    var topAlerts: seq<Alert>
    var selectedAlert: Option<Selection>
    var selectedDataCollectors: seq<int>
    var dataCollectors: seq<DropdownOption>
    var activeCollectors: nat
    var totalCollectors: nat
    var dataCollectorsLoading: bool

    ghost predicate Valid()
      reads this
    {
      (barsCount == 0 || barsCount == RangeTable(range).1) &&
      activeCollectors <= |dataCollectors| &&
      SelectionOf(selectedAlert, topAlerts) &&
      (selectedAlert.Some? ==>
        (selectedAlert.value.isFirst <==> selectedAlert.value.index == 0) &&
        (selectedAlert.value.isLast <==> selectedAlert.value.index == |topAlerts| - 1))
    }

    /** Every loading indicator a refresh raises. */
    predicate RefreshFlagsDown()
      reads this
    {
      !newDevicesLoading && !packetsLoading && !quarantineCountLoading &&
      !quarantineDeviceCountLoading && !alertsCountLoading && !topAlertsLoading
    }

    constructor (now: int)
      ensures Valid()
      ensures range == Day && barsCount == 0 && lastUpdated == now && isLoading && topAlertsLoading
      ensures alertsCount == 0 && topAlerts == [] && selectedAlert == None && selectedDataCollectors == []
      ensures dataCollectors == [] && activeCollectors == 0 && totalCollectors == 0
    {
      range, barsCount, lastUpdated, isLoading := Day, 0, now, true;
      newDevicesLoading, packetsLoading, quarantineCountLoading := false, false, false;
      quarantineDeviceCountLoading, alertsCountLoading, topAlertsLoading := false, false, true;
      alertsCountArray, alertsCount, topAlerts, selectedAlert := [], 0, [], None;
      selectedDataCollectors, dataCollectors := [], [];
      activeCollectors, totalCollectors, dataCollectorsLoading := 0, 0, false;
    }

    /**
     * Switches the window to preset `r` at time `now`: records the update
     * time, sets the grouping and bar count, and issues the device and alert
     * count queries. A silent refresh raises no loading indicator.
     */
    method UpdateRange(r: Range, silent: bool, now: int) returns (req: AlertsRequest)
      requires Valid()
      modifies this`lastUpdated, this`newDevicesLoading, this`packetsLoading, this`quarantineCountLoading,
               this`quarantineDeviceCountLoading, this`alertsCountLoading, this`range, this`barsCount,
               this`isLoading, this`alertsCountArray
      ensures Valid()
      ensures lastUpdated == now && range == r && !isLoading && alertsCountArray == []
      ensures (req.groupBy, barsCount) == RangeTable(r)
      ensures newDevicesLoading == packetsLoading == quarantineCountLoading == !silent
      ensures quarantineDeviceCountLoading == alertsCountLoading == !silent
    {
      var table := RangeTable(r);
      var groupBy, bars := table.0, table.1;
      req := AlertsRequest(groupBy);
      lastUpdated, newDevicesLoading, packetsLoading, quarantineCountLoading, quarantineDeviceCountLoading,
        alertsCountLoading, range, barsCount, isLoading, alertsCountArray :=
        now, !silent, !silent, !silent, !silent, !silent, r, bars, false, [];
    }

    /** One of the device-store queries answered: its indicator goes down. */
    method OnDeviceQueryDone(q: DeviceQuery)
      requires Valid()
      modifies this`newDevicesLoading, this`packetsLoading, this`quarantineCountLoading,
               this`quarantineDeviceCountLoading
      ensures Valid()
      ensures newDevicesLoading == (old(newDevicesLoading) && q != NewDevices)
      ensures packetsLoading == (old(packetsLoading) && q != Packets)
      ensures quarantineCountLoading == (old(quarantineCountLoading) && q != QuarantineGrouped)
      ensures quarantineDeviceCountLoading == (old(quarantineDeviceCountLoading) && q != QuarantineTotal)
    {
      match q {
        case NewDevices => newDevicesLoading := false;
        case Packets => packetsLoading := false;
        case QuarantineGrouped => quarantineCountLoading := false;
        case QuarantineTotal => quarantineDeviceCountLoading := false;
      }
    }

    /** The alert-count answer: the bar series and the alert total replace the old ones. */
    method OnAlertsCountArrived(req: AlertsRequest, rows: seq<AlertCountRow>, colorOf: string -> string)
      requires Valid()
      modifies this`alertsCountLoading, this`alertsCountArray, this`isLoading, this`alertsCount
      ensures Valid()
      ensures !alertsCountLoading && !isLoading
      ensures var kept := Filter(rows, HasRisk);
              |alertsCountArray| == |kept| &&
              (forall j :: 0 <= j < |kept| ==> alertsCountArray[j] == BarOf(kept[j], req.groupBy, colorOf)) &&
              alertsCount == SumCounts(kept)
    {
      var bars, total := AlertsCountSeries(rows, req.groupBy, colorOf);
      StoreAlertsCount(bars, total);
    }

    /** Stores an alert-count answer's bars and total; the loaders go down. */
    method StoreAlertsCount(bars: seq<Bar>, total: int)
      requires Valid()
      modifies this`alertsCountLoading, this`alertsCountArray, this`isLoading, this`alertsCount
      ensures Valid()
      ensures !alertsCountLoading && !isLoading && alertsCountArray == bars && alertsCount == total
    {
      alertsCountLoading, alertsCountArray, isLoading, alertsCount := false, bars, false, total;
    }

    /** Issues the latest-unresolved-alerts query; a silent one shows no loader. */
    method GetTopAlerts(silent: bool)
      requires Valid()
      modifies this`topAlertsLoading
      ensures Valid() && topAlertsLoading == !silent
    {
      topAlertsLoading := !silent;
    }

    /**
     * The latest-alerts answer replaces the list. An open details selection
     * belonged to the replaced list and is closed.
     */
    method OnTopAlertsArrived(alerts: seq<Alert>)
      requires Valid()
      modifies this`topAlertsLoading, this`topAlerts, this`selectedAlert
      ensures Valid() && !topAlertsLoading && topAlerts == alerts && selectedAlert == None
    {
      topAlertsLoading, topAlerts, selectedAlert := false, alerts, None;
    }

    /** The same answer as the view applies it: the selection is left as it was. */
    method OnTopAlertsArrivedAsWritten(alerts: seq<Alert>)
      requires Valid()
      modifies this`topAlertsLoading, this`topAlerts
      ensures !topAlertsLoading && topAlerts == alerts && selectedAlert == old(selectedAlert)
    {
      topAlertsLoading, topAlerts := false, alerts;
    }

    /**
     * A new-alert push event at time `now`: when more than the quiet period has
     * passed since the last update, the latest alerts and the current range are
     * refreshed silently; otherwise nothing happens.
     */
    method OnNewAlertEvent(now: int) returns (refreshed: bool, req: Option<AlertsRequest>)
      requires Valid()
      modifies this`lastUpdated, this`newDevicesLoading, this`packetsLoading, this`quarantineCountLoading,
               this`quarantineDeviceCountLoading, this`alertsCountLoading, this`range, this`barsCount,
               this`isLoading, this`alertsCountArray, this`topAlertsLoading
      ensures Valid()
      ensures refreshed <==> now - old(lastUpdated) > QuietPeriod
      ensures refreshed ==> lastUpdated == now && range == old(range) && RefreshFlagsDown() && req.Some?
      ensures refreshed ==> alertsCountArray == [] && !isLoading
      ensures refreshed ==> (req.value.groupBy, barsCount) == RangeTable(range)
      ensures !refreshed ==>
                req == None && lastUpdated == old(lastUpdated) && range == old(range) &&
                barsCount == old(barsCount) && isLoading == old(isLoading) &&
                alertsCountArray == old(alertsCountArray) && topAlertsLoading == old(topAlertsLoading) &&
                newDevicesLoading == old(newDevicesLoading) && packetsLoading == old(packetsLoading) &&
                quarantineCountLoading == old(quarantineCountLoading) &&
                quarantineDeviceCountLoading == old(quarantineDeviceCountLoading) &&
                alertsCountLoading == old(alertsCountLoading)
    {
      refreshed := now - lastUpdated > QuietPeriod;
      req := None;
      if refreshed {
        GetTopAlerts(true);
        var r := UpdateRange(range, true, now);
        req := Some(r);
      }
    }

    /** A new dropdown selection: the range is refreshed silently and the latest alerts with a loader. */
    method HandleDataCollectorSelection(value: seq<int>, now: int) returns (req: AlertsRequest)
      requires Valid()
      modifies this`selectedDataCollectors, this`lastUpdated, this`newDevicesLoading, this`packetsLoading,
               this`quarantineCountLoading, this`quarantineDeviceCountLoading, this`alertsCountLoading,
               this`range, this`barsCount, this`isLoading, this`alertsCountArray, this`topAlertsLoading
      ensures Valid()
      ensures selectedDataCollectors == value && lastUpdated == now && range == old(range)
      ensures (req.groupBy, barsCount) == RangeTable(range)
      ensures !newDevicesLoading && !packetsLoading && !quarantineCountLoading
      ensures !quarantineDeviceCountLoading && !alertsCountLoading && topAlertsLoading
      ensures alertsCountArray == [] && !isLoading
    {
      selectedDataCollectors := value;
      req := UpdateRange(range, true, now);
      GetTopAlerts(false);
    }

    /** An alert was resolved from the list: the latest alerts are reloaded. */
    method HandleAlertResolution()
      requires Valid()
      modifies this`topAlertsLoading
      ensures Valid() && topAlertsLoading
    {
      GetTopAlerts(false);
    }

    /** Issues the collector queries. */
    method GetDataCollectors()
      requires Valid()
      modifies this`dataCollectorsLoading
      ensures Valid() && dataCollectorsLoading
    {
      dataCollectorsLoading := true;
    }

    /** The collector answer: the list `cs` and the organisation's collector total. */
    method OnDataCollectorsArrived(cs: seq<Collector>, total: nat)
      requires Valid()
      modifies this`totalCollectors, this`activeCollectors, this`dataCollectorsLoading, this`isLoading,
               this`dataCollectors
      ensures Valid()
      ensures totalCollectors == total && !dataCollectorsLoading && !isLoading
      ensures activeCollectors == ActiveCollectors(cs) && dataCollectors == DropdownOptions(cs)
      ensures CountWhere(dataCollectors, IsGreen) == activeCollectors
    {
      var options, active := DropdownOptions(cs), ActiveCollectors(cs);
      DropdownGreen(cs);
      StoreCollectors(options, active, total);
    }

    /** Stores a collector answer's dropdown and counts; the loaders go down. */
    method StoreCollectors(options: seq<DropdownOption>, active: nat, total: nat)
      requires Valid() && active <= |options|
      modifies this`totalCollectors, this`activeCollectors, this`dataCollectorsLoading, this`isLoading,
               this`dataCollectors
      ensures Valid()
      ensures totalCollectors == total && !dataCollectorsLoading && !isLoading
      ensures activeCollectors == active && dataCollectors == options
    {
      totalCollectors, activeCollectors, dataCollectors, dataCollectorsLoading, isLoading :=
        total, active, options, false, false;
    }

    /** Mounting: collectors, the last day's counts and the latest alerts are loaded. */
    method Mount(now: int) returns (req: AlertsRequest)
      requires Valid()
      modifies this`dataCollectorsLoading, this`lastUpdated, this`newDevicesLoading, this`packetsLoading,
               this`quarantineCountLoading, this`quarantineDeviceCountLoading, this`alertsCountLoading,
               this`range, this`barsCount, this`isLoading, this`alertsCountArray, this`topAlertsLoading
      ensures Valid()
      ensures dataCollectorsLoading && lastUpdated == now && range == Day && barsCount == 26
      ensures req.groupBy == ByHour && topAlertsLoading && alertsCountLoading
      ensures newDevicesLoading && packetsLoading && quarantineCountLoading && quarantineDeviceCountLoading
      ensures alertsCountArray == [] && !isLoading
    {
      GetDataCollectors();
      req := UpdateRange(Day, false, now);
      GetTopAlerts(false);
    }

    /** Opens the details modal on latest alert `index`. */
    method ShowAlertDetails(index: nat)
      requires Valid() && index < |topAlerts|
      modifies this`selectedAlert
      ensures Valid()
      ensures selectedAlert == Some(Selection(index, topAlerts[index], index == 0, index == |topAlerts| - 1))
    {
      selectedAlert := Some(Selection(index, topAlerts[index], index == 0, index == |topAlerts| - 1));
    }

    method CloseAlertDetails()
      requires Valid()
      modifies this`selectedAlert
      ensures Valid() && selectedAlert == None
    {
      selectedAlert := None;
    }

    /**
     * Previous (-1) or next (+1) in the details modal: the index stays within
     * the latest alerts; a move off either end does nothing.
     */
    method GoToAlert(direction: int)
      requires Valid() && selectedAlert.Some?
      requires direction == -1 || direction == 1
      modifies this`selectedAlert
      ensures Valid()
      ensures selectedAlert.Some? && selectedAlert.value.index < |topAlerts|
      ensures var t := NavigationTarget(old(selectedAlert.value.index), |topAlerts|, direction);
              if t.None? then selectedAlert == old(selectedAlert)
              else 0 <= t.value < |topAlerts| &&
                   selectedAlert == Some(Selection(t.value, topAlerts[t.value], t.value == 0, t.value == |topAlerts| - 1))
    {
      var index := selectedAlert.value.index;
      var target := NavigationTarget(index, |topAlerts|, direction);
      if target.Some? {
        NavigationTargetInRange(index, |topAlerts|, direction);
        ShowAlertDetails(target.value);
      }
    }
  }

  /**
   * A selection left past the end of the latest alerts, as the view's own
   * handlers reach it: three alerts, the third opened, a push event after the
   * quiet period, and a one-alert answer to the silent refresh applied as the
   * view applies it. "Next" then targets an alert past the list.
   */
  method StaleSelectionAfterRefresh() returns (d: Dashboard)
    ensures d.selectedAlert.Some? && d.selectedAlert.value.index >= |d.topAlerts| > 0
    ensures NavigationTarget(d.selectedAlert.value.index, |d.topAlerts|, 1).value >= |d.topAlerts|
  {
    var a := Alert(1, "t");
    d := new Dashboard(0);
    d.OnTopAlertsArrived([a, a, a]);
    d.ShowAlertDetails(2);
    var refreshed, req := d.OnNewAlertEvent(QuietPeriod + 1);
    d.OnTopAlertsArrivedAsWritten([a]);
    StaleNavigationLeavesList(d.selectedAlert.value.index, |d.topAlerts|);
  }
}
