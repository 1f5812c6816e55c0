/** Client code that drives the editor through whole sessions and checks, from the
    contracts alone, what the save action does. */
module Scenarios {
  import opened Wrappers
  import opened Groups
  import opened TabList
  import opened ChartEditor

  const XY: Definition := Definition(["x", "y"])

  method NewSession(definition: Option<Definition>) returns (e: Editor)
    ensures fresh(e) && fresh(e.chart) && e.Valid() && e.TabsInStep()
    ensures e.chart.groups == [] && e.chart.definition == definition && e.registry == map["xy" := XY]
    ensures e.groupDefaults == map["key" := ""]
    ensures e.Effects() == HostEffects([], [], 0, 0) && !e.backVisible
  {
    var chart := new Chart(ChartRecord("c0", "xy", "", "", false, None, definition, map[], []));
    e := new Editor(chart, map["xy" := XY], "ds1", map["key" := ""], "xy", "c1");
  }

  /** Type `xy`; group A binds y to the sentinel, group B binds both roles. The save
      stops at A, shows A's tab and leaves storage and navigation alone. */
  method SaveStopsAtFirstOffender()
  {
    var e := NewSession(Some(XY));
    var a := Group("ga", map["key" := "A", "x" := "col1", "y" := NullSentinel]);
    var b := Group("gb", map["key" := "B", "x" := "col2", "y" := "col3"]);
    e.ResetGroups([a, b]);
    assert Offends(a, XY.columns) by { assert IsNullAt(a, XY.columns[1]); }
    var outcome := e.Save("t1", "unused");
    assert outcome == Rejected(0);
    assert e.shown == Some("ga");
    assert e.Effects() == HostEffects([], [], 0, 0);
  }

  /** Type `xy` and one group binding both roles: the save goes to the viewer and defers
      one task, whose run saves the chart once and reveals "back". */
  method SaveDrawsAndPersistsOnce()
  {
    var e := NewSession(Some(XY));
    var a := Group("ga", map["key" := "A", "x" := "col1", "y" := "col2"]);
    e.ResetGroups([a]);
    assert !Offends(a, XY.columns) by {
      forall c | 0 <= c < |XY.columns| ensures !IsNullAt(a, XY.columns[c]) {
        assert XY.columns[c] == "x" || XY.columns[c] == "y";
      }
    }
    var outcome := e.Save("t1", "unused");
    assert outcome == Drawn;
    assert e.Effects() == HostEffects([ViewerView], [PersistAndRedraw], 0, 0);
    var ran := e.RunDeferred();
    assert ran && e.saves == 1 && e.backVisible && e.pending == [];
    ran := e.RunDeferred();
    assert !ran && e.saves == 1;
  }

  /** An unknown type leaves the definition undefined; with a group, the save throws
      after the snapshot and neither navigates nor defers anything. */
  method SaveWithUnknownTypeThrows()
  {
    var e := NewSession(Some(XY));
    e.ChangeType("unknown");
    assert e.chart.definition.None?;
    e.ResetGroups([Group("ga", map[])]);
    var outcome := e.Save("t1", "unused");
    assert outcome == Threw;
    assert e.Effects() == HostEffects([], [], 0, 0);
  }

  /** Picking a type in the picker and then saving keeps the picked type, whatever the
      chart's type was before the click. */
  method PickedTypeSurvivesSave()
  {
    var e := NewSession(Some(XY));
    e.ChangeType("xy");
    var a := Group("ga", map["x" := "col1", "y" := "col2"]);
    e.ResetGroups([a]);
    assert !Offends(a, XY.columns) by {
      forall c | 0 <= c < |XY.columns| ensures !IsNullAt(a, XY.columns[c]) {
        assert XY.columns[c] == "x" || XY.columns[c] == "y";
      }
    }
    var outcome := e.Save("t1", "unused");
    assert outcome == Drawn;
    assert e.chart.chartType == "xy" && e.chart.definition == Some(XY);
  }

  /** Setting an attribute other than `key` leaves the tab list as it was, even when
      the tabs are not in step with the groups. */
  method NonKeyAttributeKeepsTabs()
  {
    var e := NewSession(Some(XY));
    e.ResetGroups([Group("ga", map["key" := "A"])]);
    var before := e.tabs;
    e.SetGroupAttribute("ga", "x", "col1");
    assert e.tabs == before;
  }

  /** Saving without groups adds exactly one group and its tab, shows it, and neither
      navigates nor defers anything. */
  method SaveWithoutGroupsAddsOne()
  {
    var e := NewSession(Some(XY));
    var outcome := e.Save("t1", "g-new");
    assert outcome == NeedsGroup;
    assert |e.chart.groups| == 1 && |e.tabs| == 3 && e.shown == Some("g-new");
    assert e.tabs[2] == Tab("g-new", Some(Labels.Label(1, Some(""))), true);
    assert e.Effects() == HostEffects([], [], 0, 0);
    var removed := e.RemoveGroup("g-new");
    assert removed && e.chart.groups == [] && e.tabs == FixedTabs;
  }
}
