/**
 * The alarm-review view: the filter criteria, the pie-chart aggregates built
 * from fetched counts, sorting, pagination and the alert-details navigator.
 *
 * Each remote query is split into the call that issues it (which updates the
 * view state at once) and a separate "response arrives" method that takes the
 * fetched data as parameters. Responses are applied whenever they arrive;
 * nothing discards an earlier request's answer.
 */
module AlarmReview {
  import opened Common

  /** Alerts per table page. */
  const PageSize: nat := 20

  /** Colours given, in turn, to the alert-type and collector slices. */
  const Palette: seq<string> := ["#38b9dc", "#1f77b4", "#103350", "#9467bd", "#2185d0"]

  const ResolvedLabel: string := "RESOLVED"
  const UnresolvedLabel: string := "UNRESOLVED"

  datatype Direction = Asc | Desc

  /** The table's sort: one field and its direction. */
  datatype OrderBy = OrderBy(field: string, direction: Direction)

  /** The filter sent with every alert query; `resolved` is true, false or null. */
  datatype Criteria = Criteria(
    types: seq<string>,
    risks: seq<string>,
    dataCollectors: seq<int>,
    resolved: Option<bool>,
    from: Option<int>,
    to: Option<int>)

  /**
   * One pie-chart slice. `code` is set for alert-type slices and `id` for
   * collector slices; other slices leave them at "" and 0.
   */
  datatype Slice = Slice(name: string, value: int, selected: bool, color: string, code: string, id: int)

  /** The four pies, each of which drives one criteria field. */
  datatype Pie = Statuses | Risks | Types | DataCollectors

  /** Per-alert-type count, as the type-count query returns it. */
  datatype TypeCount = TypeCount(code: string, name: string, risk: Risk, count: nat)

  /** Per-collector count, as the collector query returns it. */
  datatype CollectorCount = CollectorCount(id: int, name: string, count: nat)

  /** A page query in flight, with the selection its callback captured. */
  datatype PageRequest = PageRequest(page: int, selectedIndex: Option<nat>)

  /** A full reload in flight: the 1-based table page it asks rows for (the query sends `page - 1`). */
  datatype LoadRequest = LoadRequest(page: int)

  function RiskLabel(r: Risk): string
  {
    match r
    case High => "HIGH"
    case Medium => "MEDIUM"
    case Low => "LOW"
    case Info => "INFO"
  }

  // ---------------------------------------------------------------------------
  // Pagination

  /** Number of table pages: the ceiling of `alertsCount / PageSize`. */
  function TotalPages(alertsCount: nat): (r: nat)
    ensures alertsCount == 0 <==> r == 0
    ensures (r - 1) * PageSize < alertsCount <= r * PageSize || alertsCount == 0
  {
    (alertsCount + PageSize - 1) / PageSize
  }

  // ---------------------------------------------------------------------------
  // Sorting

  function Flipped(d: Direction): Direction
  {
    if d == Asc then Desc else Asc
  }

  /** The sort after clicking the header of `field`. */
  function SortToggled(o: OrderBy, field: string): (r: OrderBy)
    ensures r.field == o.field
    ensures o.field == field ==> r.direction != o.direction
    ensures o.field != field ==> r == o
  {
    if o.field == field then o.(direction := Flipped(o.direction)) else o
  }

  /** Clicking the same header twice restores the original sort. */
  lemma SortToggleTwice(o: OrderBy, field: string)
    ensures SortToggled(SortToggled(o, field), field) == o
  {
  }

  // ---------------------------------------------------------------------------
  // Slice selection and the criteria lists derived from it

  function LabelOf(s: Slice): string { s.name }
  function CodeOf(s: Slice): string { s.code }
  function IdOf(s: Slice): int { s.id }
  predicate IsSelected(s: Slice) { s.selected }

  /** Position of the first slice labelled `name`, as `array.find` locates it. */
  function LabelIndex(s: seq<Slice>, name: string): (r: Option<nat>)
    ensures r.Some? ==> r.value < |s| && s[r.value].name == name
    ensures r.Some? ==> forall j :: 0 <= j < r.value ==> s[j].name != name
    ensures r.None? <==> forall j :: 0 <= j < |s| ==> s[j].name != name
  {
    FindFirst(s, (x: Slice) => x.name == name)
  }

  /** The slices with the selection flag of slice `k` inverted. */
  function Flip(s: seq<Slice>, k: nat): (r: seq<Slice>)
    requires k < |s|
    ensures |r| == |s| && r[k].selected == !s[k].selected
    ensures r[k] == s[k].(selected := r[k].selected)
    ensures forall j :: 0 <= j < |s| && j != k ==> r[j] == s[j]
  {
    s[k := s[k].(selected := !s[k].selected)]
  }

  /** `key` of each selected slice, in slice order (`filter(selected).map(key)`). */
  function SelectedKeys<K>(s: seq<Slice>, key: Slice -> K): (r: seq<K>)
    ensures |r| == CountWhere(s, IsSelected)
    ensures forall i :: 0 <= i < |s| && s[i].selected ==> key(s[i]) in r
  {
    if |s| == 0 then []
    else
      var rest := SelectedKeys(s[1..], key);
      assert forall i :: 1 <= i < |s| ==> s[i] == s[1..][i - 1];
      (if s[0].selected then [key(s[0])] else []) + rest
  }

  /** Every key in the list comes from a selected slice. */
  lemma {:induction false} SelectedKeysSound<K>(s: seq<Slice>, key: Slice -> K, j: nat)
    requires j < |SelectedKeys(s, key)|
    ensures exists i :: 0 <= i < |s| && s[i].selected && key(s[i]) == SelectedKeys(s, key)[j]
  {
    if s[0].selected && j == 0 {
      assert s[0].selected && key(s[0]) == SelectedKeys(s, key)[0];
    } else {
      var j' := if s[0].selected then j - 1 else j;
      SelectedKeysSound(s[1..], key, j');
      var i :| 0 <= i < |s[1..]| && s[1..][i].selected && key(s[1..][i]) == SelectedKeys(s[1..], key)[j'];
      assert s[i + 1] == s[1..][i];
    }
  }

  /** The selected keys of two runs of slices are concatenated in order. */
  lemma {:induction false} SelectedKeysAppend<K>(a: seq<Slice>, b: seq<Slice>, key: Slice -> K)
    ensures SelectedKeys(a + b, key) == SelectedKeys(a, key) + SelectedKeys(b, key)
  {
    if |a| == 0 {
      assert a + b == b;
    } else {
      assert (a + b)[1..] == a[1..] + b;
      SelectedKeysAppend(a[1..], b, key);
    }
  }

  /** Flipping one slice changes the number of selected slices by exactly one. */
  lemma {:induction false} FlipCount(s: seq<Slice>, k: nat)
    requires k < |s|
    ensures CountWhere(Flip(s, k), IsSelected) == CountWhere(s, IsSelected) + (if s[k].selected then -1 else 1)
  {
    if k > 0 {
      assert Flip(s, k)[1..] == Flip(s[1..], k - 1);
      FlipCount(s[1..], k - 1);
    } else {
      assert Flip(s, 0)[1..] == s[1..];
    }
  }

  /** The status pie: RESOLVED then UNRESOLVED, at most one of them selected. */
  ghost predicate StatusesWellFormed(st: seq<Slice>)
  {
    st == [] ||
    (|st| == 2 && st[0].name == ResolvedLabel && st[1].name == UnresolvedLabel &&
     !(st[0].selected && st[1].selected))
  }

  /** The `resolved` criterion the status selection stands for. */
  function ResolvedFilter(st: seq<Slice>): (r: Option<bool>)
    requires |st| == 2
    ensures r == Some(true) <==> st[0].selected
    ensures !st[0].selected ==> (r == Some(false) <==> st[1].selected)
    ensures r == None <==> !st[0].selected && !st[1].selected
  {
    if st[0].selected then Some(true) else if st[1].selected then Some(false) else None
  }

  /**
   * A click on status slice `k`: the slice flips; selecting one status
   * deselects the other; `resolved` becomes true, false or null accordingly.
   */
  function StatusToggle(st: seq<Slice>, k: nat): (r: (seq<Slice>, Option<bool>))
    requires StatusesWellFormed(st) && k < |st|
    ensures StatusesWellFormed(r.0) && |r.0| == 2
    ensures r.0 == Flip(st, k) || (r.0[k].selected && r.0 == Flip(st, k)[1 - k := st[1 - k].(selected := false)])
    ensures r.0[k].selected == !st[k].selected
    ensures r.1 == ResolvedFilter(r.0)
  {
    var slices := Flip(st, k);
    var other := 1 - k;
    if slices[k].name == ResolvedLabel then
      if slices[k].selected then (slices[other := slices[other].(selected := false)], Some(true))
      else (slices, None)
    else
      if slices[k].selected then (slices[other := slices[other].(selected := false)], Some(false))
      else (slices, None)
  }

  // ---------------------------------------------------------------------------
  // Aggregates built from the fetched counts

  /** Sum of the counts of the alert types whose risk is `r`. */
  function RiskSum(ts: seq<TypeCount>, r: Risk): (n: nat)
  {
    if |ts| == 0 then 0
    else RiskSum(ts[..|ts| - 1], r) + (if ts[|ts| - 1].risk == r then ts[|ts| - 1].count else 0)
  }

  /** Sum of all alert-type counts. */
  function TotalCount(ts: seq<TypeCount>): nat
  {
    if |ts| == 0 then 0 else TotalCount(ts[..|ts| - 1]) + ts[|ts| - 1].count
  }

  /** The four risk totals together account for every alert-type count. */
  lemma {:induction false} RiskSumsCover(ts: seq<TypeCount>)
    ensures RiskSum(ts, High) + RiskSum(ts, Medium) + RiskSum(ts, Low) + RiskSum(ts, Info) == TotalCount(ts)
  {
    if |ts| > 0 {
      RiskSumsCover(ts[..|ts| - 1]);
    }
  }

  /**
   * Accumulates the per-risk totals (`mapRisks[type.risk] += type.count`),
   * starting from zero for each of the four risks.
   */
  method RiskTotals(ts: seq<TypeCount>) returns (totals: map<Risk, nat>)
    ensures forall r: Risk :: r in totals && totals[r] == RiskSum(ts, r)
  {
    totals := map[High := 0, Medium := 0, Low := 0, Info := 0];
    var i := 0;
    forall r: Risk ensures r in totals && totals[r] == RiskSum(ts[..0], r) {
      assert r.High? || r.Medium? || r.Low? || r.Info?;
    }
    while i < |ts|
      invariant 0 <= i <= |ts|
      invariant forall r: Risk :: r in totals && totals[r] == RiskSum(ts[..i], r)
    {
      assert ts[..i + 1][..i] == ts[..i];
      var t := ts[i];
      totals := totals[t.risk := totals[t.risk] + t.count];
      i := i + 1;
    }
    assert ts[..|ts|] == ts;
  }

  /** The two status slices: resolved = total - unresolved, UNRESOLVED preselected. */
  function StatusSlices(total: nat, unresolved: nat): (st: seq<Slice>)
    ensures |st| == 2 && st[0].value + st[1].value == total
    ensures st[1].value == unresolved
    ensures StatusesWellFormed(st) && ResolvedFilter(st) == Some(false)
  {
    [Slice(ResolvedLabel, total - unresolved, false, "#5d9cec", "", 0),
     Slice(UnresolvedLabel, unresolved, true, "#f05050", "", 0)]
  }

  function TypeSlice(t: TypeCount): Slice
  {
    Slice(t.name, t.count, false, "", t.code, 0)
  }

  function CollectorSlice(dc: CollectorCount): Slice
  {
    Slice(dc.name, dc.count, false, "", "", dc.id)
  }

  /** One slice per alert type, in response order. */
  function TypeSlices(ts: seq<TypeCount>): (r: seq<Slice>)
    ensures |r| == |ts| && forall i :: 0 <= i < |ts| ==> r[i] == TypeSlice(ts[i])
  {
    seq(|ts|, i requires 0 <= i < |ts| => TypeSlice(ts[i]))
  }

  /** One slice per collector, in response order. */
  function CollectorSlices(dcs: seq<CollectorCount>): (r: seq<Slice>)
    ensures |r| == |dcs| && forall i :: 0 <= i < |dcs| ==> r[i] == CollectorSlice(dcs[i])
  {
    seq(|dcs|, i requires 0 <= i < |dcs| => CollectorSlice(dcs[i]))
  }

  function RiskSlice(risk: Risk, total: nat, riskColor: Risk -> string): Slice
  {
    Slice(RiskLabel(risk), total, false, riskColor(risk), "", 0)
  }

  /** The risk slices, HIGH to INFO, each valued at its risk total. */
  function RiskSlices(ts: seq<TypeCount>, riskColor: Risk -> string): (r: seq<Slice>)
    ensures |r| == 4
    ensures forall i :: 0 <= i < 4 ==> r[i].code == "" && r[i].id == 0 && !r[i].selected
    ensures r[0].name == "HIGH" && r[0].value == RiskSum(ts, High)
    ensures r[1].name == "MEDIUM" && r[1].value == RiskSum(ts, Medium)
    ensures r[2].name == "LOW" && r[2].value == RiskSum(ts, Low)
    ensures r[3].name == "INFO" && r[3].value == RiskSum(ts, Info)
  {
    [RiskSlice(High, RiskSum(ts, High), riskColor), RiskSlice(Medium, RiskSum(ts, Medium), riskColor),
     RiskSlice(Low, RiskSum(ts, Low), riskColor), RiskSlice(Info, RiskSum(ts, Info), riskColor)]
  }

  predicate NonZeroValue(s: Slice) { s.value != 0 }

  /** The slices worth drawing: those whose value is not zero, in order. */
  function NonZero(s: seq<Slice>): (r: seq<Slice>)
    ensures |r| == CountWhere(s, NonZeroValue)
    ensures forall i :: 0 <= i < |r| ==> r[i].value != 0 && r[i] in s
    ensures forall i :: 0 <= i < |s| && s[i].value != 0 ==> s[i] in r
  {
    Filter(s, NonZeroValue)
  }

  /**
   * Dropping zero slices commutes with concatenation: the kept slices appear
   * in their original order, each as often as before, so the palette position
   * of a kept slice is its rank among the kept ones.
   */
  lemma NonZeroKeepsOrder(a: seq<Slice>, b: seq<Slice>)
    ensures NonZero(a + b) == NonZero(a) + NonZero(b)
  {
    FilterAppend(a, b, NonZeroValue);
  }

  /** Slice `i` coloured with palette entry `i % 5`, nothing else changed. */
  function Colored(s: seq<Slice>): (r: seq<Slice>)
    ensures |r| == |s|
    ensures forall i :: 0 <= i < |s| ==> r[i] == s[i].(color := Palette[i % 5])
  {
    seq(|s|, i requires 0 <= i < |s| => s[i].(color := Palette[i % 5]))
  }

  /** Within any five consecutive coloured slices no colour repeats. */
  lemma ColoredNeighboursDiffer(s: seq<Slice>, i: nat, j: nat)
    requires i < j < |s| && j - i < 5
    ensures Colored(s)[i].color != Colored(s)[j].color
  {
    var a, b := i % 5, j % 5;
    assert a != b;
    assert Palette[a][1] != Palette[b][1] || Palette[a][2] != Palette[b][2];
  }

  /** Assigns the palette colours in turn (`forEach((item, index) => item.color = ...)`). */
  method Colorize(s: seq<Slice>) returns (r: seq<Slice>)
    ensures r == Colored(s)
  {
    r := s;
    var i := 0;
    while i < |r|
      invariant 0 <= i <= |r| == |s|
      invariant forall j :: 0 <= j < i ==> r[j] == s[j].(color := Palette[j % 5])
      invariant forall j :: i <= j < |r| ==> r[j] == s[j]
    {
      r := r[i := r[i].(color := Palette[i % 5])];
      i := i + 1;
    }
  }

  /** The four pies' contents. */
  datatype Pies = Pies(statuses: seq<Slice>, risks: seq<Slice>, types: seq<Slice>, dataCollectors: seq<Slice>)

  /** The pies a full reload produces from the fetched counts. */
  function AggregatesOf(typeCounts: seq<TypeCount>, total: nat, unresolved: nat,
                        collectors: seq<CollectorCount>, riskColor: Risk -> string): Pies
  {
    Pies(StatusSlices(total, unresolved),
         NonZero(RiskSlices(typeCounts, riskColor)),
         Colored(NonZero(TypeSlices(typeCounts))),
         Colored(NonZero(CollectorSlices(collectors))))
  }

  /** Builds the pies of a full reload, accumulating the risk totals and colouring as it goes. */
  method BuildAggregates(typeCounts: seq<TypeCount>, total: nat, unresolved: nat,
                         collectors: seq<CollectorCount>, riskColor: Risk -> string) returns (agg: Pies)
    ensures agg == AggregatesOf(typeCounts, total, unresolved, collectors, riskColor)
    ensures agg.statuses[0].value + agg.statuses[1].value == total
    ensures forall i :: 0 <= i < |agg.risks| ==> agg.risks[i].value != 0
    ensures forall i :: 0 <= i < |agg.types| ==> agg.types[i].value != 0 && agg.types[i].color == Palette[i % 5]
    ensures forall i :: 0 <= i < |agg.dataCollectors| ==>
              agg.dataCollectors[i].value != 0 && agg.dataCollectors[i].color == Palette[i % 5]
  {
    var totals := RiskTotals(typeCounts);
    var riskSlices := [RiskSlice(High, totals[High], riskColor), RiskSlice(Medium, totals[Medium], riskColor),
                       RiskSlice(Low, totals[Low], riskColor), RiskSlice(Info, totals[Info], riskColor)];
    var filteredTypes := Colorize(NonZero(TypeSlices(typeCounts)));
    var filteredCollectors := Colorize(NonZero(CollectorSlices(collectors)));
    agg := Pies(StatusSlices(total, unresolved), NonZero(riskSlices), filteredTypes, filteredCollectors);
  }

  // ---------------------------------------------------------------------------
  // The view

  class AlarmReview {
    var range: Option<Range>
    var customRange: bool
    var isLoading: bool
    var isGraphsLoading: bool
    var isStatusLoading: bool
    var activePage: int
    var alerts: seq<Alert>
    /** Total alerts in the window (the status pie's base). */
    var count: nat
    /** The count pagination is computed from (null before the first answer, read as 0). */
    var alertsCount: nat
    var statuses: seq<Slice>
    var risks: seq<Slice>
    var types: seq<Slice>
    var dataCollectors: seq<Slice>
    var orderBy: OrderBy
    var selectedAlert: Option<Selection>
    var newAlerts: bool
    var criteria: Criteria

    ghost predicate Valid()
      reads this`activePage, this`selectedAlert, this`alerts, this`statuses, this`count
    {
      activePage >= 1 &&
      SelectionOf(selectedAlert, alerts) &&
      StatusesWellFormed(statuses) &&
      (statuses != [] ==> statuses[0].value + statuses[1].value == count)
    }

    /** The slices of one pie. */
    function PieSlices(pie: Pie): seq<Slice>
      reads this
    {
      match pie
      case Statuses => statuses
      case Risks => risks
      case Types => types
      case DataCollectors => dataCollectors
    }

    constructor ()
      ensures Valid()
      ensures range == Some(Day) && !customRange && isLoading && isGraphsLoading && !isStatusLoading
      ensures activePage == 1 && alerts == [] && count == 0 && alertsCount == 0
      ensures statuses == [] && risks == [] && types == [] && dataCollectors == []
      ensures orderBy == OrderBy("created_at", Desc) && selectedAlert == None && !newAlerts
      ensures criteria == Criteria([], [], [], Some(false), None, None)
    {
      range, customRange := Some(Day), false;
      isLoading, isGraphsLoading, isStatusLoading := true, true, false;
      activePage, alerts, count, alertsCount := 1, [], 0, 0;
      statuses, risks, types, dataCollectors := [], [], [], [];
      orderBy, selectedAlert, newAlerts := OrderBy("created_at", Desc), None, false;
      criteria := Criteria([], [], [], Some(false), None, None);
    }

    /**
     * Selects a preset window ending `now`, `span` time units long, clears the
     * categorical filters and restarts at page 1; the full reload is then in
     * flight, asking for the page the paginator now shows.
     */
    method UpdateRange(r: Range, now: int, span: Positive) returns (req: LoadRequest)
      requires Valid()
      modifies this`criteria, this`customRange, this`activePage, this`isLoading, this`isGraphsLoading, this`range
      ensures Valid()
      ensures criteria == Criteria([], [], [], Some(false), Some(now - span), Some(now))
      ensures criteria.from.value < criteria.to.value
      ensures range == Some(r) && !customRange && activePage == 1 && isLoading && isGraphsLoading
      ensures req == LoadRequest(activePage)
    {
      criteria := criteria.(types := [], risks := [], resolved := Some(false), dataCollectors := []);
      criteria := criteria.(to := Some(now), from := Some(now - span));
      customRange, activePage, isLoading, isGraphsLoading, range := false, 1, true, true, Some(r);
      req := LoadRequest(1);
    }

    /**
     * The same selection as the view performs it: the reload reads the page
     * number before the batched state update applies, so it asks for the page
     * shown before the click while the paginator moves to page 1.
     */
    method UpdateRangeAsWritten(r: Range, now: int, span: Positive) returns (req: LoadRequest)
      requires Valid()
      modifies this`criteria, this`customRange, this`activePage, this`isLoading, this`isGraphsLoading, this`range
      ensures Valid()
      ensures criteria == Criteria([], [], [], Some(false), Some(now - span), Some(now))
      ensures range == Some(r) && !customRange && activePage == 1 && isLoading && isGraphsLoading
      ensures req == LoadRequest(old(activePage))
    {
      var shown := activePage;
      req := UpdateRange(r, now, span);
      req := LoadRequest(shown);
    }

    /** The "Clear" link and the custom-range name's delete icon: back to the last day. */
    method ClearDateRange(now: int, span: Positive) returns (req: LoadRequest)
      requires Valid()
      modifies this`criteria, this`customRange, this`activePage, this`isLoading, this`isGraphsLoading, this`range
      ensures Valid()
      ensures criteria == Criteria([], [], [], Some(false), Some(now - span), Some(now))
      ensures range == Some(Day) && !customRange && activePage == 1 && isLoading && isGraphsLoading
      ensures req == LoadRequest(activePage)
    {
      req := UpdateRange(Day, now, span);
    }

    /** Sets the custom start date (or clears it); the preset range is dropped. */
    method HandleFromDateChange(from: Option<int>)
      requires Valid()
      modifies this`criteria, this`range
      ensures Valid()
      ensures criteria == old(criteria).(from := from) && range == None
    {
      criteria := criteria.(from := from);
      range := None;
    }

    /** Sets the custom end date (or clears it); the preset range is dropped. */
    method HandleToDateChange(to: Option<int>)
      requires Valid()
      modifies this`criteria, this`range
      ensures Valid()
      ensures criteria == old(criteria).(to := to) && range == None
    {
      criteria := criteria.(to := to);
      range := None;
    }

    /**
     * Applies the custom window: clears the categorical filters, keeps from/to
     * and reloads the page the paginator now shows.
     */
    method HandleDateFilterClick() returns (req: LoadRequest)
      requires Valid()
      modifies this`criteria, this`customRange, this`activePage, this`isLoading, this`isGraphsLoading
      ensures Valid()
      ensures criteria == Criteria([], [], [], Some(false), old(criteria.from), old(criteria.to))
      ensures customRange && activePage == 1 && isLoading && isGraphsLoading
      ensures req == LoadRequest(activePage)
    {
      criteria := criteria.(types := [], risks := [], resolved := Some(false), dataCollectors := []);
      customRange, activePage, isLoading, isGraphsLoading := true, 1, true, true;
      req := LoadRequest(1);
    }

    /**
     * The full reload's answer: the first page, the per-type counts, the total
     * and unresolved counts and the per-collector counts. `riskColor` is the
     * risk colour table.
     */
    method OnLoadArrived(page: seq<Alert>, typeCounts: seq<TypeCount>, total: nat, unresolved: nat,
                         collectors: seq<CollectorCount>, riskColor: Risk -> string)
      requires Valid()
      modifies this`isLoading, this`isGraphsLoading, this`alertsCount, this`count, this`statuses,
               this`dataCollectors, this`types, this`risks, this`alerts, this`selectedAlert
      ensures Valid()
      ensures !isLoading && !isGraphsLoading && alerts == page
      ensures selectedAlert == None
      ensures alertsCount == unresolved && count == total
      ensures Pies(statuses, risks, types, dataCollectors) ==
              AggregatesOf(typeCounts, total, unresolved, collectors, riskColor)
    {
      var agg := BuildAggregates(typeCounts, total, unresolved, collectors, riskColor);
      ApplyLoad(page, agg, total, unresolved);
    }

    /**
     * Stores a reload's answer: the page (closing any open selection),
     * the pies, the total the status pie adds up to and the unresolved count.
     */
    method ApplyLoad(page: seq<Alert>, agg: Pies, total: nat, unresolved: nat)
      requires Valid()
      requires StatusesWellFormed(agg.statuses) && |agg.statuses| == 2
      requires agg.statuses[0].value + agg.statuses[1].value == total
      modifies this`isLoading, this`isGraphsLoading, this`alertsCount, this`count, this`statuses,
               this`dataCollectors, this`types, this`risks, this`alerts, this`selectedAlert
      ensures Valid()
      ensures !isLoading && !isGraphsLoading && alerts == page
      ensures selectedAlert == None
      ensures alertsCount == unresolved && count == total
      ensures Pies(statuses, risks, types, dataCollectors) == agg
    {
      alerts, selectedAlert := page, None;
      count, statuses, dataCollectors, types, risks := total, agg.statuses, agg.dataCollectors, agg.types, agg.risks;
      isLoading, isGraphsLoading, alertsCount := false, false, unresolved;
    }

    /**
     * An alert was resolved from the list: one alert moves from UNRESOLVED to
     * RESOLVED in the status pie and the table goes back to page 1.
     */
    method HandleAlertResolution()
      requires Valid() && statuses != []
      modifies this`activePage, this`isLoading, this`isStatusLoading, this`statuses
      ensures Valid()
      ensures activePage == 1 && isLoading && !isStatusLoading
      ensures |statuses| == 2
      ensures statuses[0] == old(statuses[0]).(value := old(statuses[0].value) + 1)
      ensures statuses[1] == old(statuses[1]).(value := old(statuses[1].value) - 1)
      ensures statuses[0].value + statuses[1].value == old(statuses[0].value + statuses[1].value)
    {
      activePage, isLoading, isStatusLoading := 1, true, true;
      var resolvedItem := statuses[0];
      var unresolvedItem := statuses[1];
      resolvedItem := resolvedItem.(value := resolvedItem.value + 1);
      unresolvedItem := unresolvedItem.(value := unresolvedItem.value - 1);
      isStatusLoading, statuses := false, [resolvedItem, unresolvedItem];
    }

    /**
     * A page answer that carries no count (after a resolution). An open
     * details selection belonged to the replaced page and is closed.
     */
    method OnAlertsArrived(page: seq<Alert>)
      requires Valid()
      modifies this`alerts, this`isLoading, this`selectedAlert
      ensures Valid()
      ensures alerts == page && !isLoading && selectedAlert == None
    {
      alerts, isLoading, selectedAlert := page, false, None;
    }

    /** The same answer as the view applies it: the selection is left as it was. */
    method OnAlertsArrivedAsWritten(page: seq<Alert>)
      requires Valid()
      modifies this`alerts, this`isLoading
      ensures alerts == page && !isLoading && selectedAlert == old(selectedAlert)
    {
      alerts, isLoading := page, false;
    }

    /**
     * A page answer with the matching count (after a filter toggle or a sort).
     * An open details selection belonged to the replaced page and is closed.
     */
    method OnQueryArrived(page: seq<Alert>, matching: nat)
      requires Valid()
      modifies this`alerts, this`alertsCount, this`isLoading, this`selectedAlert
      ensures Valid()
      ensures alerts == page && alertsCount == matching && !isLoading && selectedAlert == None
    {
      alertsCount, alerts, isLoading, selectedAlert := matching, page, false, None;
    }

    /** The same answer as the view applies it: the selection is left as it was. */
    method OnQueryArrivedAsWritten(page: seq<Alert>, matching: nat)
      requires Valid()
      modifies this`alerts, this`alertsCount, this`isLoading
      ensures alerts == page && alertsCount == matching && !isLoading && selectedAlert == old(selectedAlert)
    {
      alertsCount, alerts, isLoading := matching, page, false;
    }

    /**
     * A click on the slice labelled `name` of `pie` (or on its filter tag):
     * flips that slice, recomputes the criterion the pie drives and restarts at
     * page 1. On the status pie the two statuses exclude each other.
     */
    method HandleItemSelected(pie: Pie, name: string)
      requires Valid()
      requires LabelIndex(PieSlices(pie), name).Some?
      modifies this`statuses, this`risks, this`types, this`dataCollectors, this`criteria,
               this`activePage, this`isLoading
      ensures Valid()
      ensures activePage == 1 && isLoading
      ensures pie != Statuses ==> statuses == old(statuses)
      ensures pie != Risks ==> risks == old(risks)
      ensures pie != Types ==> types == old(types)
      ensures pie != DataCollectors ==> dataCollectors == old(dataCollectors)
      ensures var k := LabelIndex(old(PieSlices(pie)), name).value;
              |PieSlices(pie)| == |old(PieSlices(pie))| &&
              PieSlices(pie)[k].selected == !old(PieSlices(pie))[k].selected
      ensures pie != Statuses ==>
              PieSlices(pie) == Flip(old(PieSlices(pie)), LabelIndex(old(PieSlices(pie)), name).value)
      ensures pie == Statuses ==>
              (statuses, criteria.resolved) == StatusToggle(old(statuses), LabelIndex(old(statuses), name).value) &&
              criteria == old(criteria).(resolved := ResolvedFilter(statuses))
      ensures pie == Types ==> criteria == old(criteria).(types := SelectedKeys(types, CodeOf))
      ensures pie == Risks ==> criteria == old(criteria).(risks := SelectedKeys(risks, LabelOf))
      ensures pie == DataCollectors ==>
              criteria == old(criteria).(dataCollectors := SelectedKeys(dataCollectors, IdOf))
    {
      var k := LabelIndex(PieSlices(pie), name).value;
      match pie {
        case Statuses => SelectStatus(k);
        case Types => SelectType(k);
        case Risks => SelectRisk(k);
        case DataCollectors => SelectDataCollector(k);
      }
    }

    /** Toggles status slice `k`; `resolved` follows the new status selection. */
    method SelectStatus(k: nat)
      requires Valid() && k < |statuses|
      modifies this`statuses, this`criteria, this`activePage, this`isLoading
      ensures Valid() && activePage == 1 && isLoading
      ensures (statuses, criteria.resolved) == StatusToggle(old(statuses), k)
      ensures criteria == old(criteria).(resolved := ResolvedFilter(statuses))
    {
      var toggled := StatusToggle(statuses, k);
      statuses, criteria, activePage, isLoading := toggled.0, criteria.(resolved := toggled.1), 1, true;
    }

    /** Flips alert-type slice `k`; `types` becomes the selected type codes. */
    method SelectType(k: nat)
      requires Valid() && k < |types|
      modifies this`types, this`criteria, this`activePage, this`isLoading
      ensures Valid() && activePage == 1 && isLoading
      ensures types == Flip(old(types), k) && criteria == old(criteria).(types := SelectedKeys(types, CodeOf))
    {
      var flipped := Flip(types, k);
      types, criteria, activePage, isLoading := flipped, criteria.(types := SelectedKeys(flipped, CodeOf)), 1, true;
    }

    /** Flips risk slice `k`; `risks` becomes the selected risk labels. */
    method SelectRisk(k: nat)
      requires Valid() && k < |risks|
      modifies this`risks, this`criteria, this`activePage, this`isLoading
      ensures Valid() && activePage == 1 && isLoading
      ensures risks == Flip(old(risks), k) && criteria == old(criteria).(risks := SelectedKeys(risks, LabelOf))
    {
      var flipped := Flip(risks, k);
      risks, criteria, activePage, isLoading := flipped, criteria.(risks := SelectedKeys(flipped, LabelOf)), 1, true;
    }

    /** Flips collector slice `k`; `dataCollectors` becomes the selected collector ids. */
    method SelectDataCollector(k: nat)
      requires Valid() && k < |dataCollectors|
      modifies this`dataCollectors, this`criteria, this`activePage, this`isLoading
      ensures Valid() && activePage == 1 && isLoading
      ensures dataCollectors == Flip(old(dataCollectors), k)
      ensures criteria == old(criteria).(dataCollectors := SelectedKeys(dataCollectors, IdOf))
    {
      var flipped := Flip(dataCollectors, k);
      dataCollectors, criteria, activePage, isLoading :=
        flipped, criteria.(dataCollectors := SelectedKeys(flipped, IdOf)), 1, true;
    }

    /** A click on a sortable header: the same field flips direction; the table restarts at page 1. */
    method HandleSort(field: string)
      requires Valid()
      modifies this`orderBy, this`activePage, this`isLoading
      ensures Valid()
      ensures orderBy == SortToggled(old(orderBy), field)
      ensures activePage == 1 && isLoading
    {
      if orderBy.field == field {
        orderBy := orderBy.(direction := if orderBy.direction == Asc then Desc else Asc);
      }
      activePage, isLoading := 1, true;
    }

    /** Opens the details modal on alert `index` of the current page. */
    method ShowAlertDetails(index: nat)
      requires Valid() && index < |alerts|
      modifies this`selectedAlert
      ensures Valid()
      ensures selectedAlert.Some? && selectedAlert.value.index == index
      ensures selectedAlert.value.alert == alerts[index]
      ensures selectedAlert.value.isFirst <==> activePage == 1 && index == 0
      ensures selectedAlert.value.isLast <==> activePage == TotalPages(alertsCount) && index == |alerts| - 1
    {
      selectedAlert := Some(Selection(index, alerts[index],
        activePage == 1 && index == 0,
        activePage == TotalPages(alertsCount) && index == |alerts| - 1));
    }

    method CloseAlertDetails()
      requires Valid()
      modifies this`selectedAlert
      ensures Valid() && selectedAlert == None
    {
      selectedAlert := None;
    }

    /** Moves the table to page `page`; the query is in flight with the current selection captured. */
    method HandlePaginationChange(page: int) returns (req: PageRequest)
      requires Valid() && page >= 1
      modifies this`activePage, this`isLoading
      ensures Valid()
      ensures activePage == page && isLoading
      ensures req.page == page
      ensures req.selectedIndex == (if selectedAlert.Some? then Some(selectedAlert.value.index) else None)
    {
      activePage, isLoading := page, true;
      req := PageRequest(page, if selectedAlert.Some? then Some(selectedAlert.value.index) else None);
    }

    /**
     * The answer to a page change. When the modal was open, the selection
     * re-binds to the last alert of the new page if it had been on index 0
     * (moving backward), and to the first alert otherwise (moving forward).
     * A selection opened after a request that captured none is closed, and so
     * is one for which the new page has no alert.
     */
    method OnPageArrived(req: PageRequest, page: seq<Alert>)
      requires Valid()
      modifies this`alerts, this`isLoading, this`selectedAlert
      ensures Valid()
      ensures alerts == page && !isLoading
      ensures req.selectedIndex.None? ==> selectedAlert == None
      ensures req.selectedIndex.Some? && req.selectedIndex.value >= PageSize ==> selectedAlert == None
      ensures page == [] ==> selectedAlert == None
      ensures req.selectedIndex == Some(0) && page != [] ==>
              selectedAlert.Some? && selectedAlert.value.index == |page| - 1
      ensures req.selectedIndex.Some? && 0 < req.selectedIndex.value < PageSize && page != [] ==>
              selectedAlert.Some? && selectedAlert.value.index == 0
      ensures req.selectedIndex.Some? && req.selectedIndex.value < PageSize && page != [] ==>
              selectedAlert.value.alert == page[selectedAlert.value.index] &&
              (selectedAlert.value.isFirst <==> activePage == 1 && selectedAlert.value.index == 0) &&
              (selectedAlert.value.isLast <==>
                activePage == TotalPages(alertsCount) && selectedAlert.value.index == |page| - 1)
    {
      alerts, isLoading, selectedAlert := page, false, None;
      if req.selectedIndex.Some? && page != [] {
        if req.selectedIndex.value == 0 {
          ShowAlertDetails(|page| - 1);
        } else if req.selectedIndex.value < PageSize {
          ShowAlertDetails(0);
        }
      }
    }

    /**
     * The same answer as the view applies it. The page is stored first; an
     * open selection is left as it was unless the request captured one, in
     * which case the alert at the re-bound index is looked up. On an empty
     * page that lookup finds nothing and the view throws (`throws`), leaving
     * the empty page stored and the old selection open.
     */
    method OnPageArrivedAsWritten(req: PageRequest, page: seq<Alert>) returns (throws: bool)
      requires Valid()
      modifies this`alerts, this`isLoading, this`selectedAlert
      ensures alerts == page && !isLoading
      ensures throws <==> req.selectedIndex.Some? && req.selectedIndex.value < PageSize && page == []
      ensures !(req.selectedIndex.Some? && req.selectedIndex.value < PageSize && page != []) ==>
              selectedAlert == old(selectedAlert)
      ensures req.selectedIndex.Some? && req.selectedIndex.value < PageSize && page != [] ==>
              var k := if req.selectedIndex.value == 0 then |page| - 1 else 0;
              selectedAlert == Some(Selection(k, page[k], activePage == 1 && k == 0,
                                              activePage == TotalPages(alertsCount) && k == |page| - 1))
    {
      alerts, isLoading, throws := page, false, false;
      if req.selectedIndex.Some? && req.selectedIndex.value < PageSize {
        if page == [] {
          throws := true;
        } else {
          var k := if req.selectedIndex.value == 0 then |page| - 1 else 0;
          selectedAlert := Some(Selection(k, page[k], activePage == 1 && k == 0,
                                          activePage == TotalPages(alertsCount) && k == |page| - 1));
        }
      }
    }

    /**
     * Previous (-1) or next (+1) in the details modal. Inside the page the
     * selection moves to the adjacent alert; off either end of the page the
     * adjacent page is requested when it exists, and nothing happens when it
     * does not.
     */
    method GoToAlert(direction: int) returns (req: Option<PageRequest>)
      requires Valid() && selectedAlert.Some?
      requires direction == -1 || direction == 1
      modifies this`selectedAlert, this`activePage, this`isLoading
      ensures Valid()
      ensures var i := old(selectedAlert.value.index);
              i == 0 && direction < 0 && old(activePage) > 1 ==>
                req == Some(PageRequest(old(activePage) - 1, Some(0))) &&
                activePage == old(activePage) - 1 && isLoading && selectedAlert == old(selectedAlert)
      ensures var i := old(selectedAlert.value.index);
              i == 0 && direction < 0 && old(activePage) == 1 ==>
                req == None && activePage == 1 && isLoading == old(isLoading) &&
                selectedAlert == old(selectedAlert)
      ensures var i := old(selectedAlert.value.index);
              i == |alerts| - 1 && direction > 0 && old(activePage) < TotalPages(alertsCount) ==>
                req == Some(PageRequest(old(activePage) + 1, Some(i))) &&
                activePage == old(activePage) + 1 && isLoading && selectedAlert == old(selectedAlert)
      ensures var i := old(selectedAlert.value.index);
              i == |alerts| - 1 && direction > 0 && old(activePage) >= TotalPages(alertsCount) ==>
                req == None && activePage == old(activePage) && isLoading == old(isLoading) &&
                selectedAlert == old(selectedAlert)
      ensures var t := NavigationTarget(old(selectedAlert.value.index), |alerts|, direction);
              t.Some? ==>
                req == None && activePage == old(activePage) && isLoading == old(isLoading) &&
                0 <= t.value < |alerts| &&
                selectedAlert == Some(Selection(t.value, alerts[t.value],
                  activePage == 1 && t.value == 0,
                  activePage == TotalPages(alertsCount) && t.value == |alerts| - 1))
    {
      var index := selectedAlert.value.index;
      var target := NavigationTarget(index, |alerts|, direction);
      req := None;
      if target.Some? {
        NavigationTargetInRange(index, |alerts|, direction);
        ShowAlertDetails(target.value);
      } else if direction < 0 {
        if activePage > 1 {
          var r := HandlePaginationChange(activePage - 1);
          req := Some(r);
        }
      } else if activePage < TotalPages(alertsCount) {
        var r := HandlePaginationChange(activePage + 1);
        req := Some(r);
      }
    }

    /** A new-alert push event: the "There're new alerts" banner is raised. */
    method OnNewAlertEvent()
      requires Valid()
      modifies this`newAlerts
      ensures Valid() && newAlerts
    {
      newAlerts := true;
    }

    /** The banner's "Reload now": back to the last day's first page, banner lowered. */
    method ReloadNow(now: int, span: Positive) returns (req: LoadRequest)
      requires Valid()
      modifies this`criteria, this`customRange, this`activePage, this`isLoading, this`isGraphsLoading,
               this`range, this`newAlerts
      ensures Valid()
      ensures criteria == Criteria([], [], [], Some(false), Some(now - span), Some(now))
      ensures range == Some(Day) && !customRange && activePage == 1 && isLoading && isGraphsLoading && !newAlerts
      ensures req == LoadRequest(activePage)
    {
      req := UpdateRange(Day, now, span);
      newAlerts := false;
    }
  }

  /** A fresh view after its first reload, with two clicks on the UNRESOLVED status slice unanswered. */
  method TwoStatusQueriesInFlight() returns (v: AlarmReview)
    ensures fresh(v) && v.Valid() && v.isLoading
  {
    v := new AlarmReview();
    v.OnLoadArrived([], [], 3, 3, [], (r: Risk) => "");
    v.HandleItemSelected(Statuses, UnresolvedLabel);
    v.HandleItemSelected(Statuses, UnresolvedLabel);
  }

  /**
   * A selection left past the end of the page, as the view's own handlers
   * reach it: after the first reload, two clicks on the UNRESOLVED status
   * slice put two filtered queries in flight; the first answers three alerts
   * and the third is opened; the second answers one alert and is applied as
   * the view applies it. "Next" then targets an alert past the page.
   */
  method StaleSelectionAfterTwoQueries() returns (v: AlarmReview)
    ensures v.selectedAlert.Some? && v.selectedAlert.value.index >= |v.alerts| > 0
    ensures NavigationTarget(v.selectedAlert.value.index, |v.alerts|, 1).value >= |v.alerts|
  {
    var a := Alert(1, "t");
    v := TwoStatusQueriesInFlight();
    v.OnQueryArrived([a, a, a], 3);
    v.ShowAlertDetails(2);
    v.OnQueryArrivedAsWritten([a], 1);
    StaleNavigationLeavesList(v.selectedAlert.value.index, |v.alerts|);
  }

  /** Twenty alerts, as they fill a table page. */
  function Twenty(): (page: seq<Alert>)
    ensures |page| == PageSize
  {
    seq(20, i => Alert(i, "t"))
  }

  /** A fresh view after a reload answering a full first page of 21 unresolved alerts. */
  method FullFirstPage() returns (v: AlarmReview)
    ensures fresh(v) && v.Valid() && v.activePage == 1
    ensures |v.alerts| == 20 && v.alertsCount == 21 && v.statuses == StatusSlices(21, 21)
  {
    v := new AlarmReview();
    v.OnLoadArrived(Twenty(), [], 21, 21, [], (r: Risk) => "");
  }

  /**
   * A page change the view's own handlers answer with an empty page: one of
   * 21 unresolved alerts is resolved, which leaves the pagination count at 21
   * while the first page is re-fetched full; "next" from its last alert asks
   * for page 2, which comes back empty, and the view's lookup of the re-bound
   * alert throws.
   */
  method EmptyPageAfterResolution() returns (v: AlarmReview, req: PageRequest, throws: bool)
    ensures |v.statuses| == 2 && v.statuses[1].value == 20 && v.alertsCount == 21
    ensures req == PageRequest(2, Some(19)) && throws
  {
    v := FullFirstPage();
    v.HandleAlertResolution();
    v.OnAlertsArrived(Twenty());
    v.ShowAlertDetails(19);
    var r := v.GoToAlert(1);
    req := r.value;
    throws := v.OnPageArrivedAsWritten(req, []);
  }

  /**
   * A reload after paging, as the view issues it: on page 3, picking the last
   * week moves the paginator to page 1 while the reload asks for page 3.
   */
  method ReloadAfterPaging() returns (v: AlarmReview, req: LoadRequest)
    ensures v.activePage == 1 && req.page == 3
  {
    v := new AlarmReview();
    var p := v.HandlePaginationChange(3);
    req := v.UpdateRangeAsWritten(Week, 10, 1);
  }
}
