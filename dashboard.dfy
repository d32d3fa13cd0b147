/**
 * `djutils/dashboard/static/js/dashboard.js`: the client side of the
 * dashboard. `load_data` merges fetched points into a three-level store
 * (panel, label, point) and `plot_data` turns each label's points into a
 * series ordered by point id. Fetching, timers and drawing are not modelled.
 */
module Dashboard {
  import opened Text
  import opened Sorting

  /** `make_id(id)`: `'id-' + id` for an integer point id. */
  function MakeId(id: int): (r: string)
    ensures |r| > 3 && r[..3] == "id-" && r[3..] == IntToString(id)
  {
    "id-" + IntToString(id)
  }

  /** Different point ids never share a key. */
  lemma MakeIdInjective(a: int, b: int)
    ensures MakeId(a) == MakeId(b) ==> a == b
  {
    if MakeId(a) == MakeId(b) {
      assert IntToString(a) == MakeId(a)[3..];
      IntToStringInjective(a, b);
    }
  }

  /** A stored point: `[point_id, value]`. */
  type Point = (int, real)
  /** One label's points, keyed by `make_id(point_id)`. */
  type Points = map<string, Point>
  /** One panel's labels. */
  type Labels = map<string, Points>
  /** `dashboard_data`: panels by panel id. */
  type Data = map<string, Labels>

  /** One fetched item: `{panel_id, point_id, data: {label: value}}`. */
  datatype Item = Item(panelId: string, pointId: int, data: map<string, real>)

  function PanelOf(dd: Data, p: string): Labels { if p in dd then dd[p] else map[] }

  function LabelOf(panel: Labels, l: string): Points { if l in panel then panel[l] else map[] }

  /** The panel after the labels in `done` have had the item's point stored. */
  function MergeLabels(panel: Labels, item: Item, done: set<string>): Labels
    requires done <= item.data.Keys
  {
    map l | l in panel.Keys + done ::
      if l in done then LabelOf(panel, l)[MakeId(item.pointId) := (item.pointId, item.data[l])] else panel[l]
  }

  /** What one item of `load_data` does to the store. */
  function LoadItem(dd: Data, item: Item): Data
  {
    dd[item.panelId := MergeLabels(PanelOf(dd, item.panelId), item, item.data.Keys)]
  }

  /** `load_data(items)`, item by item. */
  function LoadAll(dd: Data, items: seq<Item>): Data
    decreases |items|
  {
    if items == [] then dd else LoadItem(LoadAll(dd, items[..|items| - 1]), items[|items| - 1])
  }

  function MaxPoint(m: int, items: seq<Item>): int
    decreases |items|
  {
    if items == [] then m
    else
      var prev := MaxPoint(m, items[..|items| - 1]);
      if items[|items| - 1].pointId > prev then items[|items| - 1].pointId else prev
  }

  /** After an item, every label in its data holds `[point_id, value]` under `make_id(point_id)`. */
  lemma LoadItemStores(dd: Data, item: Item, l: string)
    requires l in item.data
    ensures item.panelId in LoadItem(dd, item) && l in LoadItem(dd, item)[item.panelId]
    ensures LoadItem(dd, item)[item.panelId][l][MakeId(item.pointId)] == (item.pointId, item.data[l])
  {
  }

  /** Entries for other panels, labels and point ids are kept; nothing is ever removed. */
  lemma LoadItemKeeps(dd: Data, item: Item, p: string, l: string, k: string)
    requires p in dd && l in dd[p] && k in dd[p][l]
    requires !(p == item.panelId && l in item.data && k == MakeId(item.pointId))
    ensures p in LoadItem(dd, item) && l in LoadItem(dd, item)[p] && k in LoadItem(dd, item)[p][l]
    ensures LoadItem(dd, item)[p][l][k] == dd[p][l][k]
  {
  }

  /** `max_data_point` never decreases and bounds every point id loaded. */
  lemma {:induction false} MaxPointBounds(m: int, items: seq<Item>)
    ensures MaxPoint(m, items) >= m
    ensures forall i :: 0 <= i < |items| ==> MaxPoint(m, items) >= items[i].pointId
    ensures MaxPoint(m, items) == m || exists i :: 0 <= i < |items| && MaxPoint(m, items) == items[i].pointId
    decreases |items|
  {
    if items != [] {
      var front := items[..|items| - 1];
      MaxPointBounds(m, front);
      assert forall i :: 0 <= i < |front| ==> front[i] == items[i];
    }
  }

  /** Every stored point sits under the key `make_id` gives its own point id. */
  ghost predicate WellKeyed(dd: Data)
  {
    forall p, l, k :: p in dd && l in dd[p] && k in dd[p][l] ==> k == MakeId(dd[p][l][k].0)
  }

  lemma LoadItemWellKeyed(dd: Data, item: Item)
    requires WellKeyed(dd)
    ensures WellKeyed(LoadItem(dd, item))
  {
  }

  /** Within one label no two points share a point id. */
  lemma WellKeyedDistinctIds(dd: Data, p: string, l: string, k1: string, k2: string)
    requires WellKeyed(dd) && p in dd && l in dd[p] && k1 in dd[p][l] && k2 in dd[p][l] && k1 != k2
    ensures dd[p][l][k1].0 != dd[p][l][k2].0
  {
  }

  /** One series handed to `$.plot`. */
  datatype Series = Series(name: string, data: seq<(int, real)>)

  function PointId(pt: Point): int { pt.0 }

  /**
   * `data` normalises the label's points: `sorted` holds exactly those points in
   * ascending point-id order, and `data[i]` is `[i, value of the i-th]`.
   */
  ghost predicate NormalizedBy(points: Points, sorted: seq<Point>, data: seq<(int, real)>)
  {
    SortedBy(PointId, sorted) && |sorted| == |points| &&
    (forall x :: x in sorted <==> x in points.Values) &&
    |data| == |sorted| && forall i :: 0 <= i < |data| ==> data[i] == (i, sorted[i].1)
  }

  ghost predicate Normalized(points: Points, data: seq<(int, real)>)
  {
    exists sorted :: NormalizedBy(points, sorted, data)
  }

  /** One series per stored label, each label once, each normalised. */
  ghost predicate PlotOf(panel: Labels, series: seq<Series>)
  {
    |series| == |panel| &&
    (forall i :: 0 <= i < |series| ==> series[i].name in panel && Normalized(panel[series[i].name], series[i].data)) &&
    (forall i, j :: 0 <= i < j < |series| ==> series[i].name != series[j].name)
  }

  /** Keys still to enumerate and values collected are split exactly between the two. */
  lemma CollectStep(points: Points, keys: set<string>, labelData: seq<Point>, k: string)
    requires keys <= points.Keys && k in keys
    requires forall x :: x in labelData <==> exists j :: j in points.Keys - keys && points[j] == x
    ensures forall x :: x in labelData + [points[k]] <==> exists j :: j in points.Keys - (keys - {k}) && points[j] == x
  {
    forall x
      ensures x in labelData + [points[k]] <==> exists j :: j in points.Keys - (keys - {k}) && points[j] == x
    {
      if x == points[k] {
        assert k in points.Keys - (keys - {k});
      }
    }
  }

  /** The points of one label, in whatever order the dict yields them. */
  method CollectPoints(points: Points) returns (collected: seq<Point>)
    ensures |collected| == |points|
    ensures forall x :: x in collected <==> x in points.Values
  {
    collected := [];
    var keys := points.Keys;
    while keys != {}
      invariant keys <= points.Keys && |collected| + |keys| == |points|
      invariant forall x :: x in collected <==> exists j :: j in points.Keys - keys && points[j] == x
      decreases |keys|
    {
      var k :| k in keys;
      CollectStep(points, keys, collected, k);
      collected := collected + [points[k]];
      keys := keys - {k};
    }
  }

  /** `enumerate`: each point's value paired with its position. */
  method Enumerate(labelData: seq<Point>) returns (normalized: seq<(int, real)>)
    ensures |normalized| == |labelData|
    ensures forall i :: 0 <= i < |normalized| ==> normalized[i] == (i, labelData[i].1)
  {
    normalized := [];
    var i := 0;
    while i < |labelData|
      invariant 0 <= i <= |labelData| && |normalized| == i
      invariant forall j :: 0 <= j < i ==> normalized[j] == (j, labelData[j].1)
    {
      normalized := normalized + [(i, labelData[i].1)];
      i := i + 1;
    }
  }

  /**
   * One label of `plot_data`: its points are pushed in enumeration order, sorted
   * by point id, and renumbered from 0. The sorted array is returned too.
   */
  method NormalizeLabel(points: Points) returns (labelData: seq<Point>, normalized: seq<(int, real)>)
    ensures NormalizedBy(points, labelData, normalized)
  {
    var collected := CollectPoints(points);
    labelData := SortBy(PointId, collected);
    forall x
      ensures x in labelData <==> x in points.Values
    {
      SortByMembers(PointId, collected, x);
    }
    normalized := Enumerate(labelData);
  }

  /** One panel of `plot_data`: a series per label, in enumeration order. */
  method PlotPanel(panel: Labels) returns (series: seq<Series>)
    ensures PlotOf(panel, series)
  {
    series := [];
    var labels := panel.Keys;
    while labels != {}
      invariant labels <= panel.Keys && |series| + |labels| == |panel|
      invariant forall i :: 0 <= i < |series| ==>
        series[i].name in panel.Keys - labels && Normalized(panel[series[i].name], series[i].data)
      invariant forall i, j :: 0 <= i < j < |series| ==> series[i].name != series[j].name
      decreases |labels|
    {
      var l :| l in labels;
      var sorted, normalized := NormalizeLabel(panel[l]);
      series := series + [Series(l, normalized)];
      labels := labels - {l};
    }
  }

  /** `dd[label][make_id(point_id)] = [point_id, value]` for one label. */
  function StoreLabel(dd: Labels, item: Item, l: string): Labels
    requires l in item.data
  {
    dd[l := LabelOf(dd, l)[MakeId(item.pointId) := (item.pointId, item.data[l])]]
  }

  /** Storing the point for one more label extends `MergeLabels` by that label. */
  lemma MergeLabelsStep(panel: Labels, item: Item, done: set<string>, l: string)
    requires done <= item.data.Keys && l in item.data.Keys - done
    ensures MergeLabels(panel, item, done + {l}) == StoreLabel(MergeLabels(panel, item, done), item, l)
  {
    var dd := MergeLabels(panel, item, done);
    assert LabelOf(dd, l) == LabelOf(panel, l);
    var lhs := MergeLabels(panel, item, done + {l});
    var rhs := dd[l := LabelOf(dd, l)[MakeId(item.pointId) := (item.pointId, item.data[l])]];
    assert lhs.Keys == rhs.Keys;
    forall x | x in lhs.Keys
      ensures lhs[x] == rhs[x]
    {
    }
  }

  /** With no label done, the panel is as it was. */
  lemma MergeLabelsNone(panel: Labels, item: Item)
    ensures MergeLabels(panel, item, {}) == panel
  {
    var m := MergeLabels(panel, item, {});
    assert m.Keys == panel.Keys;
    forall x | x in m.Keys
      ensures m[x] == panel[x]
    {
    }
  }

  /** One more label taken off the labels still to store. */
  lemma MergeLabelsTodo(panel: Labels, item: Item, todo: set<string>, l: string)
    requires todo <= item.data.Keys && l in todo
    ensures MergeLabels(panel, item, item.data.Keys - (todo - {l}))
         == StoreLabel(MergeLabels(panel, item, item.data.Keys - todo), item, l)
  {
    assert item.data.Keys - (todo - {l}) == (item.data.Keys - todo) + {l};
    MergeLabelsStep(panel, item, item.data.Keys - todo, l);
  }

  /** The inner loop of `load_data`: `dd[label][make_id(point_id)] = [point_id, value]` for each label. */
  method MergeItem(panel: Labels, item: Item) returns (dd: Labels)
    ensures dd == MergeLabels(panel, item, item.data.Keys)
  {
    MergeLabelsNone(panel, item);
    assert item.data.Keys - item.data.Keys == {};
    dd := panel;
    var todo := item.data.Keys;
    while todo != {}
      invariant todo <= item.data.Keys
      invariant dd == MergeLabels(panel, item, item.data.Keys - todo)
      decreases |todo|
    {
      var l :| l in todo;
      MergeLabelsTodo(panel, item, todo, l);
      dd := StoreLabel(dd, item, l);
      todo := todo - {l};
    }
    assert item.data.Keys - todo == item.data.Keys;
  }

  /** The browser-side dashboard object. */
  class DashboardView {
    const dataEndpoint: string
    var dashboardData: Data
    var maxDataPoint: int

    /** `new Dashboard(data_endpoint)` before the first fetch. */
    constructor (dataEndpoint: string)
      ensures this.dataEndpoint == dataEndpoint && dashboardData == map[] && maxDataPoint == 0
    {
      this.dataEndpoint := dataEndpoint;
      dashboardData := map[];
      maxDataPoint := 0;
    }

    /** `load_data(data)`: merges every item, in order, and raises the highest point id seen. */
    method LoadData(items: seq<Item>)
      modifies this
      ensures dashboardData == LoadAll(old(dashboardData), items)
      ensures maxDataPoint == MaxPoint(old(maxDataPoint), items)
    {
      var i := 0;
      while i < |items|
        invariant 0 <= i <= |items|
        invariant dashboardData == LoadAll(old(dashboardData), items[..i])
        invariant maxDataPoint == MaxPoint(old(maxDataPoint), items[..i])
      {
        var item := items[i];
        assert items[..i + 1][..i] == items[..i] && items[..i + 1][i] == item;
        var dd := MergeItem(PanelOf(dashboardData, item.panelId), item);
        if item.pointId > maxDataPoint {
          maxDataPoint := item.pointId;
        }
        dashboardData := dashboardData[item.panelId := dd];
        i := i + 1;
      }
      assert items[..|items|] == items;
    }

    /** `plot_data()`: for each stored panel, the series given to `$.plot`. */
    method PlotData() returns (plots: seq<(string, seq<Series>)>)
      ensures |plots| == |dashboardData|
      ensures forall i :: 0 <= i < |plots| ==> plots[i].0 in dashboardData && PlotOf(dashboardData[plots[i].0], plots[i].1)
      ensures forall i, j :: 0 <= i < j < |plots| ==> plots[i].0 != plots[j].0
    {
      plots := [];
      var panels := dashboardData.Keys;
      while panels != {}
        invariant panels <= dashboardData.Keys && |plots| + |panels| == |dashboardData|
        invariant forall i :: 0 <= i < |plots| ==>
          plots[i].0 in dashboardData.Keys - panels && PlotOf(dashboardData[plots[i].0], plots[i].1)
        invariant forall i, j :: 0 <= i < j < |plots| ==> plots[i].0 != plots[j].0
        decreases |panels|
      {
        var p :| p in panels;
        var series := PlotPanel(dashboardData[p]);
        plots := plots + [(p, series)];
        panels := panels - {p};
      }
    }
  }
}
