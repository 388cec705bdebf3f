/** The display decisions of components/Dashboard.tsx, and the dashboard's state cells: the
    active tab, the selected finding, the expanded finding cards and the metrics picked for
    the trend chart. Colours are reduced to the family a class string belongs to. */
module Dashboard {
  import opened Optional
  import opened Seqs
  import opened Types

  /** The colour family of a class string: emerald/green, yellow/gold, red, or grey. */
  datatype Tone = Green | Gold | Red | Grey

  /** Orders the families from calm to alarming. */
  function Rank(t: Tone): nat
  {
    match t
    case Grey => 0
    case Green => 1
    case Gold => 2
    case Red => 3
  }

  // ---------------------------------------------------------------- summary tab

  /** `getRiskColor(level)`: the three risk levels get distinct families, any other string
      (the JSON cast lets anything through) the grey default. */
  function RiskColor(level: string): (t: Tone)
    ensures t == Green <==> level == RiskLevel.Low.Name()
    ensures t == Gold <==> level == RiskLevel.Medium.Name()
    ensures t == Red <==> level == RiskLevel.High.Name()
    ensures t == Grey <==> ParseRiskLevel(level).None?
  {
    match level
    case "low" => Green
    case "medium" => Gold
    case "high" => Red
    case _ => Grey
  }

  /** The number shown as the health score and the width of its bar, in percent. */
  function HealthScore(riskScore: real): (h: real)
    ensures 0.0 <= riskScore <= 100.0 ==> 0.0 <= h <= 100.0
    ensures h + riskScore == 100.0
  {
    100.0 - riskScore
  }

  /** The bar's colour: red above 70, gold above 30, green otherwise. */
  function BarTone(riskScore: real): (t: Tone)
    ensures t == Red <==> riskScore > 70.0
    ensures t == Gold <==> 30.0 < riskScore <= 70.0
    ensures t == Green <==> riskScore <= 30.0
  {
    if riskScore > 70.0 then Red else if riskScore > 30.0 then Gold else Green
  }

  /** A higher risk score never gives a calmer bar, and the bar turns red exactly when the
      health score drops below 30. */
  lemma BarToneMonotone(r1: real, r2: real)
    requires r1 <= r2
    ensures Rank(BarTone(r1)) <= Rank(BarTone(r2))
    ensures BarTone(r2) == Red <==> HealthScore(r2) < 30.0
  {
  }

  /** The severity badge AS WRITTEN: red for "high", yellow for "medium", green for anything
      else, "critical" included. */
  function SeverityBadgeAsWritten(severity: string): (t: Tone)
    ensures t == Red <==> severity == Severity.High.Name()
    ensures t == Gold <==> severity == Severity.Medium.Name()
    ensures t == Green <==> severity != Severity.High.Name() && severity != Severity.Medium.Name()
  {
    if severity == "high" then Red else if severity == "medium" then Gold else Green
  }

  /** The warning icon beside a finding's title: shown for high and critical. */
  predicate ShowsWarning(severity: string)
  {
    severity == "high" || severity == "critical"
  }

  /** Of the four levels, the icon marks exactly the two highest. */
  lemma ShowsWarningOfLevels(a: Severity)
    ensures ShowsWarning(a.Name()) <==> SeverityRank(a) >= 2
  {
  }

  /** As written, a critical finding carries the warning icon yet the calm green badge, a
      level below a medium finding's badge. */
  lemma CriticalBadgeIsGreen()
    ensures ShowsWarning("critical") && SeverityBadgeAsWritten("critical") == Green
    ensures Rank(SeverityBadgeAsWritten("critical")) < Rank(SeverityBadgeAsWritten("medium"))
  {
  }

  /** The severity badge as evidently intended: critical shares the red of high. */
  function SeverityBadge(severity: string): (t: Tone)
    ensures t == Red <==> ShowsWarning(severity)
    ensures t == Gold <==> severity == Severity.Medium.Name()
    ensures t == Green <==> !ShowsWarning(severity) && severity != Severity.Medium.Name()
  {
    if ShowsWarning(severity) then Red else if severity == "medium" then Gold else Green
  }

  /** The corrected badge never ranks a more severe finding below a less severe one. */
  lemma SeverityBadgeMonotone(a: Severity, b: Severity)
    requires SeverityRank(a) <= SeverityRank(b)
    ensures Rank(SeverityBadge(a.Name())) <= Rank(SeverityBadge(b.Name()))
  {
  }

  function SeverityRank(s: Severity): nat
  {
    match s
    case Low => 0
    case Medium => 1
    case High => 2
    case Critical => 3
  }

  // ---------------------------------------------------------------- detailed tab

  /** Where an annotation's box is drawn, in percent of the image. */
  datatype Placement = Placement(top: real, left: real, height: real, width: real)

  /** The 0-1000 box scaled to percent. */
  function BoxToPercent(b: Box): (p: Placement)
    ensures ValidBox(b) ==>
              0.0 <= p.top <= 100.0 && 0.0 <= p.left <= 100.0 &&
              0.0 <= p.height <= 100.0 && 0.0 <= p.width <= 100.0
    ensures 10.0 * (p.top + p.height) == b.ymax && 10.0 * (p.left + p.width) == b.xmax
    ensures 10.0 * p.top == b.ymin && 10.0 * p.left == b.xmin
  {
    Placement(b.ymin / 10.0, b.xmin / 10.0, (b.ymax - b.ymin) / 10.0, (b.xmax - b.xmin) / 10.0)
  }

  /** The overlays drawn for the annotations: one per annotation with a box, in order; an
      annotation without a box is skipped. */
  function Overlays(anns: seq<Annotation>): (r: seq<Placement>)
    ensures |r| <= |anns|
    ensures (forall i :: 0 <= i < |anns| ==> anns[i].box2d.None?) <==> r == []
    ensures (forall i :: 0 <= i < |anns| ==> anns[i].box2d.Some?) ==> |r| == |anns|
  {
    if anns == [] then []
    else (if anns[0].box2d.Some? then [BoxToPercent(anns[0].box2d.value)] else []) + Overlays(anns[1..])
  }

  predicate HasBox(a: Annotation)
  {
    a.box2d.Some?
  }

  /** The overlays are exactly the annotations that have a box, kept in order, each box
      scaled to percent. */
  lemma {:induction false} OverlaysOfBoxed(anns: seq<Annotation>)
    ensures var f := Filter(anns, HasBox);
            |Overlays(anns)| == |f| &&
            forall i :: 0 <= i < |f| ==> f[i].box2d.Some? && Overlays(anns)[i] == BoxToPercent(f[i].box2d.value)
    decreases |anns|
  {
    if anns != [] {
      OverlaysOfBoxed(anns[1..]);
    }
  }

  /** Every overlay of valid boxes lies inside the image. */
  lemma {:induction false} OverlaysInsideImage(anns: seq<Annotation>)
    requires forall i :: 0 <= i < |anns| && anns[i].box2d.Some? ==> ValidBox(anns[i].box2d.value)
    ensures forall k :: 0 <= k < |Overlays(anns)| ==>
              var p := Overlays(anns)[k];
              0.0 <= p.top && p.top + p.height <= 100.0 && 0.0 <= p.left && p.left + p.width <= 100.0
    decreases |anns|
  {
    if anns != [] {
      OverlaysInsideImage(anns[1..]);
    }
  }

  const DescriptionLimit: nat := 120

  /** A card's description: collapsed to 120 characters and "..." when long and not
      expanded, otherwise in full. */
  function DisplayedDescription(description: string, expanded: bool): (r: string)
    ensures |description| <= DescriptionLimit || expanded ==> r == description
    ensures |description| > DescriptionLimit && !expanded ==>
              |r| == DescriptionLimit + 3 && r[..DescriptionLimit] == description[..DescriptionLimit] &&
              r[DescriptionLimit..] == "..."
    ensures |r| <= |description| + 3
  {
    if |description| > DescriptionLimit && !expanded then description[..DescriptionLimit] + "..." else description
  }

  /** A click on a card: deselects it when selected, selects it otherwise. */
  function NextSelection(selected: Option<string>, id: string): (r: Option<string>)
    ensures selected == Some(id) ==> r == None
    ensures selected != Some(id) ==> r == Some(id)
  {
    if selected == Some(id) then None else Some(id)
  }

  /** Two clicks on the same card return a selected card to selected, and leave any other
      state with nothing selected. */
  lemma ClickTwice(selected: Option<string>, id: string)
    ensures selected == Some(id) ==> NextSelection(NextSelection(selected, id), id) == selected
    ensures selected != Some(id) ==> NextSelection(NextSelection(selected, id), id) == None
  {
  }

  // ---------------------------------------------------------------- comparative tab

  /** `historicalComparison?.map(h => h.metric) || []`: the tab opens with every metric picked. */
  function InitialMetrics(history: Option<seq<Comparison>>): (r: seq<string>)
    ensures history.None? ==> r == []
    ensures history.Some? ==> |r| == |history.value| && forall i :: 0 <= i < |r| ==> r[i] == history.value[i].metric
  {
    if history.None? then [] else seq(|history.value|, i requires 0 <= i < |history.value| => history.value[i].metric)
  }

  /** `toggleMetric(m)`: drops every occurrence of a picked metric, appends an unpicked one. */
  function ToggleMetric(picked: seq<string>, m: string): (r: seq<string>)
    ensures m in picked ==> r == Filter(picked, (x: string) => x != m)
    ensures m !in picked ==> r == picked + [m]
    ensures m in r <==> m !in picked
    ensures forall x :: x != m ==> (x in r <==> x in picked)
  {
    if m in picked then Filter(picked, (x: string) => x != m) else picked + [m]
  }

  /** Toggling twice restores which metrics are picked, though not their order: ... */
  lemma ToggleMetricTwice(picked: seq<string>, m: string)
    ensures forall x :: x in ToggleMetric(ToggleMetric(picked, m), m) <==> x in picked
  {
  }

  /** ... for a picked metric moves it to the end, the others keeping their order. */
  lemma ToggleMetricTwiceMovesToEnd(picked: seq<string>, m: string)
    requires m in picked
    ensures ToggleMetric(ToggleMetric(picked, m), m) == Filter(picked, (x: string) => x != m) + [m]
  {
  }

  /** `selectedData`: the comparisons whose metric is picked, in their original order. */
  function SelectedData(history: Option<seq<Comparison>>, picked: seq<string>): (r: seq<Comparison>)
    ensures history.None? ==> r == []
    ensures history.Some? ==> r == Filter(history.value, (h: Comparison) => h.metric in picked)
    ensures forall i :: 0 <= i < |r| ==> history.Some? && r[i] in history.value && r[i].metric in picked
    ensures history.Some? ==>
              forall i :: 0 <= i < |history.value| && history.value[i].metric in picked ==> history.value[i] in r
  {
    if history.None? then [] else Filter(history.value, (h: Comparison) => h.metric in picked)
  }

  /** With the initial pick every comparison is charted. */
  lemma InitialSelectionShowsAll(history: Option<seq<Comparison>>)
    ensures history.Some? ==> SelectedData(history, InitialMetrics(history)) == history.value
  {
    if history.Some? {
      var picked := InitialMetrics(history);
      forall i | 0 <= i < |history.value|
        ensures history.value[i].metric in picked
      {
        assert picked[i] == history.value[i].metric;
      }
      FilterKeepsAll(history.value, (h: Comparison) => h.metric in picked);
    }
  }

  datatype Arrow = Up | Down | Flat

  /** The trend column's arrow. */
  function TrendArrow(c: Comparison): (a: Arrow)
    ensures a == Up <==> c.current > c.previous
    ensures a == Down <==> c.current < c.previous
    ensures a == Flat <==> c.current == c.previous
  {
    if c.current > c.previous then Up else if c.current < c.previous then Down else Flat
  }

  /** The status badge: green for improving, red for worsening, grey otherwise. */
  function TrendBadge(trend: string): (t: Tone)
    ensures t == Green <==> trend == Trend.Improving.Name()
    ensures t == Red <==> trend == Trend.Worsening.Name()
    ensures t == Grey <==> trend != Trend.Improving.Name() && trend != Trend.Worsening.Name()
  {
    if trend == "improving" then Green else if trend == "worsening" then Red else Grey
  }

  const ChartColors: seq<string> := ["#3B82F6", "#10B981", "#F59E0B", "#EF4444", "#8B5CF6", "#EC4899", "#06B6D4"]

  /** The colour of the table row at `idx`: the palette repeats every seven rows. */
  function RowColor(idx: nat): (c: string)
    ensures c == ChartColors[idx % 7]
  {
    ChartColors[idx % |ChartColors|]
  }

  /** Rows seven apart share a colour. */
  lemma RowColorPeriodic(idx: nat)
    ensures RowColor(idx + 7) == RowColor(idx)
  {
  }

  /** The colour of a charted point: that of the first row with its metric. With no such row
      the index would be -1 and the colour undefined, which is `None` here. */
  function PointColor(full: seq<Comparison>, d: Comparison): (c: Option<string>)
    ensures c.None? <==> forall j :: 0 <= j < |full| ==> full[j].metric != d.metric
  {
    var k := FindIndex(full, (fd: Comparison) => fd.metric == d.metric);
    if k < 0 then None else Some(RowColor(k))
  }

  /** Every charted point has a colour, the one of the first table row with its metric. */
  lemma ChartPointsColored(history: Option<seq<Comparison>>, picked: seq<string>)
    requires history.Some?
    ensures forall i :: 0 <= i < |SelectedData(history, picked)| ==>
              var d := SelectedData(history, picked)[i];
              exists k :: 0 <= k < |history.value| && history.value[k].metric == d.metric &&
                          (forall j :: 0 <= j < k ==> history.value[j].metric != d.metric) &&
                          PointColor(history.value, d) == Some(RowColor(k))
  {
    var data := SelectedData(history, picked);
    forall i | 0 <= i < |data|
      ensures var d := data[i];
              exists k :: 0 <= k < |history.value| && history.value[k].metric == d.metric &&
                          (forall j :: 0 <= j < k ==> history.value[j].metric != d.metric) &&
                          PointColor(history.value, d) == Some(RowColor(k))
    {
      var d := data[i];
      var k := FindIndex(history.value, (fd: Comparison) => fd.metric == d.metric);
      assert k >= 0;
    }
  }

  // ---------------------------------------------------------------- state

  datatype Tab = SummaryTab | DetailedTab | ComparativeTab

  /** The metric names of the comparisons, if any. */
  function MetricNames(data: AnalysisResult): set<string>
  {
    if data.historicalComparison.None? then {}
    else set i | 0 <= i < |data.historicalComparison.value| :: data.historicalComparison.value[i].metric
  }

  /** The state cells of one mounted dashboard: `activeTab` and `selectedFindingId` of the
      dashboard itself, the `isExpanded` flag of each finding card (by finding id) and the metric
      selection of the comparative tab. A tab's cells start afresh when it is opened. */
  class DashboardView {
    const data: AnalysisResult
    var activeTab: Tab
    var selectedFindingId: Option<string>
    var expanded: set<string>
    var selectedMetrics: seq<string>

    /** Only metrics of the data are ever picked, and cards are expanded only on the
        detailed tab. */
    ghost predicate Valid()
      reads this
    {
      (forall i :: 0 <= i < |selectedMetrics| ==> selectedMetrics[i] in MetricNames(data)) &&
      (activeTab != DetailedTab ==> expanded == {})
    }

    constructor(data: AnalysisResult)
      ensures Valid()
      ensures this.data == data && activeTab == SummaryTab && selectedFindingId == None
      ensures expanded == {} && selectedMetrics == InitialMetrics(data.historicalComparison)
    {
      this.data := data;
      activeTab := SummaryTab;
      selectedFindingId := None;
      expanded := {};
      selectedMetrics := InitialMetrics(data.historicalComparison);
    }

    /** A tab button. Opening another tab mounts it afresh; the finding selection survives. */
    method SelectTab(t: Tab)
      requires Valid()
      modifies this`activeTab, this`expanded, this`selectedMetrics
      ensures Valid() && activeTab == t
      ensures t == old(activeTab) ==> expanded == old(expanded) && selectedMetrics == old(selectedMetrics)
      ensures t != old(activeTab) ==> expanded == {} && selectedMetrics == InitialMetrics(data.historicalComparison)
    {
      if t != activeTab {
        expanded := {};
        selectedMetrics := InitialMetrics(data.historicalComparison);
      }
      activeTab := t;
    }

    /** A click on the card of `data.findings[idx]`. */
    method ClickFinding(idx: nat)
      requires Valid() && activeTab == DetailedTab && idx < |data.findings|
      modifies this`selectedFindingId
      ensures Valid()
      ensures selectedFindingId == NextSelection(old(selectedFindingId), data.findings[idx].id)
    {
      var id := data.findings[idx].id;
      selectedFindingId := if selectedFindingId == Some(id) then None else Some(id);
    }

    /** The "Read More" / "Show Less" button, present only on a long description. */
    method ToggleExpanded(idx: nat)
      requires Valid() && activeTab == DetailedTab && idx < |data.findings|
      requires |data.findings[idx].description| > DescriptionLimit
      modifies this`expanded
      ensures Valid()
      ensures var id := data.findings[idx].id;
              if id in old(expanded) then expanded == old(expanded) - {id} else expanded == old(expanded) + {id}
    {
      var id := data.findings[idx].id;
      if id in expanded {
        expanded := expanded - {id};
      } else {
        expanded := expanded + {id};
      }
    }

    /** A click on the row `data.historicalComparison[idx]`. */
    method ToggleMetricRow(idx: nat)
      requires Valid() && activeTab == ComparativeTab
      requires data.historicalComparison.Some? && idx < |data.historicalComparison.value|
      modifies this`selectedMetrics
      ensures Valid()
      ensures selectedMetrics == ToggleMetric(old(selectedMetrics), data.historicalComparison.value[idx].metric)
    {
      var m := data.historicalComparison.value[idx].metric;
      selectedMetrics := ToggleMetric(selectedMetrics, m);
      forall i | 0 <= i < |selectedMetrics|
        ensures selectedMetrics[i] in MetricNames(data)
      {
        if selectedMetrics[i] != m {
          assert selectedMetrics[i] in old(selectedMetrics);
        }
      }
    }

    /** The text a finding's card shows. */
    function ShownDescription(f: Finding): (r: string)
      reads this
      ensures f.id !in expanded ==> r == DisplayedDescription(f.description, false)
      ensures f.id in expanded ==> r == f.description
    {
      DisplayedDescription(f.description, f.id in expanded)
    }

    /** The comparisons the chart draws. */
    function Charted(): (r: seq<Comparison>)
      reads this
      requires Valid()
      ensures forall i :: 0 <= i < |r| ==> r[i].metric in MetricNames(data)
    {
      SelectedData(data.historicalComparison, selectedMetrics)
    }
  }
}
