/** The chart editor: one mutable chart record and the editor's own widget state (tab
    list, shown tab, "back" operation, message, type picker, title field, portlet
    heading), with the effects it hands to its host recorded as fields (navigations,
    the queue of deferred tasks, storage saves and loads). Each method is one handler
    of the editor, including the change events the chart fires while it runs. */
module ChartEditor {
  import opened Wrappers
  import opened Groups
  import opened TabList
  import Labels

  const DefaultType: string := "nvd3_bar"
  const DefaultTitle: string := "New Chart"
  const EditorHeading: string := "Editor"
  const ViewerView: string := "viewer"
  const NoGroupsText: string := "Please select data columns before drawing the chart."
  const MissingColumnsText: string := "This chart type requires column types not found in your tabular file."

  /** The message widget's status: the save action sets `danger` for a rejected group
      and leaves it unspecified for the missing-groups notice. */
  datatype Status = Unspecified | Danger
  datatype Message = Message(status: Status, text: string)

  /** A task handed to the host's deferral facility; the editor defers only one kind:
      save the chart to storage, then fire the chart's `redraw` event. */
  datatype Task = PersistAndRedraw

  datatype ChartRecord = ChartRecord(
    id: string, chartType: string, title: string, datasetId: string, modified: bool,
    date: Option<string>, definition: Option<Definition>, settings: map<string, string>,
    groups: seq<Group>)

  datatype WidgetState = WidgetState(
    tabs: seq<Tab>, shown: Option<string>, backVisible: bool, message: Option<Message>,
    picker: string, titleField: string, portletTitle: string, titleFieldWrites: nat)

  datatype HostEffects = HostEffects(
    navigations: seq<string>, pending: seq<Task>, saves: nat, loads: nat)

  /** The chart model the editor edits in place. `definition` is the registry entry of
      the chart type (None: undefined); `settings` stands for the per-type settings model. */
  class Chart {
    var id: string
    var chartType: string
    var title: string
    var datasetId: string
    var modified: bool
    var date: Option<string>
    var definition: Option<Definition>
    var settings: map<string, string>
    var groups: seq<Group>

    constructor (r: ChartRecord)
      ensures Record() == r
    {
      id, chartType, title, datasetId := r.id, r.chartType, r.title, r.datasetId;
      modified, date, definition := r.modified, r.date, r.definition;
      settings, groups := r.settings, r.groups;
    }

    function Record(): ChartRecord
      reads this
    {
      ChartRecord(id, chartType, title, datasetId, modified, date, definition, settings, groups)
    }
  }

  class Editor {
    const chart: Chart
    /** The chart-type registry (`app.types`), a partial map. */
    const registry: map<string, Definition>
    /** `app.options.config.dataset_id`. */
    const datasetId: string
    /** The attributes a new group model starts with. */
    const groupDefaults: map<string, string>

    var tabs: seq<Tab>
    /** The tab the editor last asked the tab widget to show; None when it has not
        asked or the tab shown was deleted. */
    var shown: Option<string>
    /** Whether the portlet's "back" operation is visible. */
    var backVisible: bool
    var message: Option<Message>
    /** The type picker's selection. */
    var picker: string
    /** The title input field's value and the number of times the editor wrote it. */
    var titleField: string
    var titleFieldWrites: nat
    var portletTitle: string

    /** Views the host was asked to go to, in order. */
    var navigations: seq<string>
    /** Tasks deferred and not yet run, oldest first. */
    var pending: seq<Task>
    var saves: nat
    var loads: nat

    ghost predicate Valid()
      reads this, chart
    {
      |tabs| >= 2 && tabs[..2] == FixedTabs &&
      (forall i | 2 <= i < |tabs| :: tabs[i].removable) &&
      UniqueIds(chart.groups) && AvoidsFixedIds(chart.groups)
    }

    function Widgets(): WidgetState
      reads this
    {
      WidgetState(tabs, shown, backVisible, message, picker, titleField, portletTitle, titleFieldWrites)
    }

    function Effects(): HostEffects
      reads this
    {
      HostEffects(navigations, pending, saves, loads)
    }

    /** The tabs are the fixed ones followed by one tab per group, in group order, each
        titled `<position>: <key text>`. */
    predicate TabsInStep()
      reads this, chart
    {
      InStep(tabs, chart.groups)
    }

    /** What `Utils.uid()` guarantees of a new id: no group or tab has it. */
    predicate IsFreshId(uid: string)
      reads this, chart
    {
      uid != MainId && uid != SettingsId &&
      (forall i | 0 <= i < |chart.groups| :: chart.groups[i].id != uid) &&
      (forall i | 0 <= i < |tabs| :: tabs[i].id != uid)
    }

    function Lookup(chartType: string): Option<Definition>
      reads this
    {
      if chartType in registry then Some(registry[chartType]) else None
    }

    /** Builds the editor over the host's chart: the two fixed tabs, the portlet with
        its heading, and a reset of the chart. Groups the chart already has get no tab. */
    constructor (chart: Chart, registry: map<string, Definition>, datasetId: string,
                 groupDefaults: map<string, string>, pickerInit: string, newId: string)
      requires UniqueIds(chart.groups) && AvoidsFixedIds(chart.groups)
      modifies chart
      ensures Valid() && this.chart == chart
      ensures this.registry == registry && this.datasetId == datasetId && this.groupDefaults == groupDefaults
      ensures chart.Record() == old(chart.Record()).(id := newId, chartType := DefaultType,
                                                     datasetId := datasetId, title := DefaultTitle)
      ensures tabs == FixedTabs && shown.None? && !backVisible && message.None?
      ensures picker == (if old(chart.chartType) != DefaultType then DefaultType else pickerInit)
      ensures old(chart.title) != DefaultTitle ==>
                titleField == DefaultTitle && portletTitle == DefaultTitle && titleFieldWrites == 1
      ensures old(chart.title) == DefaultTitle ==>
                titleField == "" && portletTitle == EditorHeading && titleFieldWrites == 0
      ensures Effects() == HostEffects([], [], 0, 0)
    {
      this.chart := chart;
      this.registry := registry;
      this.datasetId := datasetId;
      this.groupDefaults := groupDefaults;
      tabs := FixedTabs;
      shown := None;
      // the portlet shows its operations; hiding `back` on the tab widget hides nothing here
      backVisible := true;
      message := None;
      picker := pickerInit;
      titleField := "";
      titleFieldWrites := 0;
      portletTitle := EditorHeading;
      navigations, pending, saves, loads := [], [], 0, 0;
      new;
      ResetChart(newId);
    }

    /** Handler of the chart's `change:title`: the heading always shows the title; the
        input field is written only when it does not already hold it. */
    method RefreshTitle()
      modifies this
      ensures portletTitle == chart.title && titleField == chart.title
      ensures titleFieldWrites == old(titleFieldWrites) + (if old(titleField) != chart.title then 1 else 0)
      ensures Widgets() == old(Widgets()).(portletTitle := chart.title, titleField := chart.title,
                                           titleFieldWrites := titleFieldWrites)
      ensures Effects() == old(Effects())
    {
      var title := chart.title;
      portletTitle := title;
      if titleField != title {
        titleField := title;
        titleFieldWrites := titleFieldWrites + 1;
      }
    }

    /** `chart.set('title', t)`: `change:title` fires only when the title changes. */
    method SetTitle(t: string)
      modifies this, chart
      ensures chart.Record() == old(chart.Record()).(title := t)
      ensures old(chart.title) != t ==>
        Widgets() == old(Widgets()).(portletTitle := t, titleField := t,
                       titleFieldWrites := old(titleFieldWrites) + (if old(titleField) != t then 1 else 0))
      ensures old(chart.title) == t ==> Widgets() == old(Widgets())
      ensures Effects() == old(Effects())
    {
      if chart.title != t {
        chart.title := t;
        RefreshTitle();
      }
    }

    /** `chart.set('type', t)`: `change:type` fires only when the type changes, and its
        handler selects the type in the picker. */
    method SetType(t: string)
      modifies this, chart
      ensures chart.Record() == old(chart.Record()).(chartType := t)
      ensures Widgets() == old(Widgets()).(picker := if old(chart.chartType) != t then t else old(picker))
      ensures Effects() == old(Effects())
    {
      if chart.chartType != t {
        chart.chartType := t;
        picker := t;
      }
    }

    /** The type picker's `onchange`: the user's click has selected `t` in the picker;
        the definition becomes the registry's entry for the type (None for an unknown
        type, which is only logged), the per-type settings are cleared, and the type is
        set with `modified`. */
    method ChangeType(t: string)
      requires Valid()
      modifies this, chart
      ensures Valid()
      ensures chart.Record() == old(chart.Record()).(definition := Lookup(t), settings := map[],
                                                     chartType := t, modified := true)
      ensures Widgets() == old(Widgets()).(picker := t)
      ensures Effects() == old(Effects())
      ensures old(TabsInStep()) ==> TabsInStep()
    {
      picker := t;
      chart.definition := Lookup(t);
      chart.settings := map[];
      chart.modified := true;
      SetType(t);
    }

    /** The title field's `onchange`: the value the user typed becomes the chart's title. */
    method EditTitle(typed: string)
      modifies this, chart
      ensures chart.Record() == old(chart.Record()).(title := typed)
      ensures titleField == typed && titleFieldWrites == old(titleFieldWrites)
      ensures portletTitle == (if old(chart.title) != typed then typed else old(portletTitle))
      ensures Widgets() == old(Widgets()).(titleField := typed, portletTitle := portletTitle)
      ensures Effects() == old(Effects())
    {
      titleField := typed;
      SetTitle(typed);
    }

    /** `_refreshGroupKey`: walks the groups in order with a running 1-based counter and
        titles each group's tab `<counter>: <key text>`. */
    method RefreshGroupKey()
      requires Valid()
      modifies this
      ensures Valid()
      ensures tabs == RelabelFrom(old(tabs), chart.groups, 0)
      ensures |tabs| == |old(tabs)|
      ensures Widgets() == old(Widgets()).(tabs := tabs)
      ensures Effects() == old(Effects())
      ensures Mirrors(old(tabs), chart.groups) ==> TabsInStep()
    {
      var gs := chart.groups;
      var counter := 0;
      while counter < |gs|
        invariant 0 <= counter <= |gs|
        invariant RelabelFrom(tabs, gs[counter..], counter) == RelabelFrom(old(tabs), gs, 0)
        invariant Widgets() == old(Widgets()).(tabs := tabs)
        invariant Effects() == old(Effects())
      {
        var g := gs[counter];
        assert gs[counter..][1..] == gs[counter + 1..];
        counter := counter + 1;
        tabs := Retitle(tabs, g.id, Labels.Label(counter, Key(g)));
      }
      assert gs[counter..] == [];
      RelabelKeepsShape(old(tabs), gs);
      if Mirrors(old(tabs), gs) {
        RelabelMirrors(old(tabs), gs);
      }
    }

    /** `_addGroup`, the handler of the collection's `add`: a removable tab for the group,
        relabelled tabs and `modified`. */
    method OnGroupAdded(g: Group)
      requires Valid() && g in chart.groups
      modifies this, chart
      ensures Valid()
      ensures chart.Record() == old(chart.Record()).(modified := true)
      ensures tabs == RelabelFrom(old(tabs) + [Tab(g.id, None, true)], chart.groups, 0)
      ensures |tabs| == |old(tabs)| + 1
      ensures Widgets() == old(Widgets()).(tabs := tabs)
      ensures Effects() == old(Effects())
      ensures Mirrors(old(tabs) + [Tab(g.id, None, true)], chart.groups) ==> TabsInStep()
    {
      tabs := tabs + [Tab(g.id, None, true)];
      assert tabs[..2] == old(tabs)[..2];
      RefreshGroupKey();
      chart.modified := true;
    }

    /** `_addGroupModel`: a new group with a fresh id joins the collection, whose `add`
        event gives it its tab. */
    method AddGroupModel(uid: string) returns (g: Group)
      requires Valid() && IsFreshId(uid)
      modifies this, chart
      ensures Valid()
      ensures g == NewGroup(uid, groupDefaults)
      ensures chart.Record() == old(chart.Record()).(groups := old(chart.groups) + [g], modified := true)
      ensures tabs == RelabelFrom(old(tabs) + [Tab(uid, None, true)], chart.groups, 0)
      ensures |tabs| == |old(tabs)| + 1
      ensures Widgets() == old(Widgets()).(tabs := tabs)
      ensures Effects() == old(Effects())
      ensures old(TabsInStep()) ==> TabsInStep()
    {
      g := NewGroup(uid, groupDefaults);
      ghost var before := tabs;
      ghost var wasInStep := TabsInStep();
      chart.groups := chart.groups + [g];
      assert chart.groups[|chart.groups| - 1] == g;
      if wasInStep {
        InStepMirrors(before, old(chart.groups));
        AppendMirrors(before, old(chart.groups), g, Tab(uid, None, true));
      }
      OnGroupAdded(g);
    }

    /** The tab widget's "add data" action: a new group, and its tab is shown. */
    method AddDataTab(uid: string)
      requires Valid() && IsFreshId(uid)
      modifies this, chart
      ensures Valid()
      ensures chart.Record() == old(chart.Record()).(groups := old(chart.groups) + [NewGroup(uid, groupDefaults)],
                                                     modified := true)
      ensures tabs == RelabelFrom(old(tabs) + [Tab(uid, None, true)], chart.groups, 0)
      ensures |tabs| == |old(tabs)| + 1 && shown == Some(uid)
      ensures Widgets() == old(Widgets()).(tabs := tabs, shown := Some(uid))
      ensures Effects() == old(Effects())
      ensures old(TabsInStep()) ==> TabsInStep()
    {
      var g := AddGroupModel(uid);
      shown := Some(g.id);
    }

    /** `_removeGroup`, the handler of the collection's `remove`: the group's tab is
        deleted, the tabs relabelled and the chart marked `modified`. */
    method OnGroupRemoved(g: Group)
      requires Valid() && g.id != MainId && g.id != SettingsId
      modifies this, chart
      ensures Valid()
      ensures chart.Record() == old(chart.Record()).(modified := true)
      ensures tabs == RelabelFrom(Delete(old(tabs), g.id), chart.groups, 0)
      ensures shown == (if old(shown) == Some(g.id) then None else old(shown))
      ensures Widgets() == old(Widgets()).(tabs := tabs, shown := shown)
      ensures Effects() == old(Effects())
      ensures Mirrors(Delete(old(tabs), g.id), chart.groups) ==> TabsInStep()
    {
      DeleteKeepsShape(tabs, g.id);
      tabs := Delete(tabs, g.id);
      if shown == Some(g.id) {
        shown := None;
      }
      RefreshGroupKey();
      chart.modified := true;
    }

    /** A group tab's delete action, `groups.remove(id)`: the group leaves the
        collection, whose `remove` event deletes its tab. An id that is not in the
        collection changes nothing. */
    method RemoveGroup(id: string) returns (removed: bool)
      requires Valid()
      modifies this, chart
      ensures Valid()
      ensures removed <==> IndexOf(old(chart.groups), id).Some?
      ensures !removed ==> chart.Record() == old(chart.Record()) && Widgets() == old(Widgets())
      ensures removed ==> chart.Record() == old(chart.Record()).(groups := Without(old(chart.groups), id),
                                                                 modified := true)
      ensures removed ==> |chart.groups| == |old(chart.groups)| - 1
      ensures removed ==> tabs == RelabelFrom(Delete(old(tabs), id), chart.groups, 0)
      ensures removed ==> shown == (if old(shown) == Some(id) then None else old(shown))
      ensures removed ==> Widgets() == old(Widgets()).(tabs := tabs, shown := shown)
      ensures old(TabsInStep()) ==> TabsInStep()
      ensures old(TabsInStep()) && removed ==> |tabs| == |old(tabs)| - 1
      ensures Effects() == old(Effects())
    {
      var k := IndexOf(chart.groups, id);
      removed := k.Some?;
      if removed {
        var g := chart.groups[k.value];
        ghost var before := tabs;
        ghost var wasInStep := TabsInStep();
        WithoutPresent(chart.groups, id);
        WithoutAvoids(chart.groups, id, MainId);
        WithoutAvoids(chart.groups, id, SettingsId);
        if wasInStep {
          InStepMirrors(before, chart.groups);
          DeleteMirrors(before, chart.groups, id);
        }
        chart.groups := Without(chart.groups, id);
        OnGroupRemoved(g);
      }
    }

    /** `_removeAllGroups`, the handler of the collection's `reset`: every removable tab
        is deleted; `main` and `settings` stay. */
    method OnGroupsReset()
      requires Valid()
      modifies this
      ensures Valid()
      ensures tabs == FixedTabs
      ensures shown == (if old(shown) == Some(MainId) || old(shown) == Some(SettingsId) then old(shown) else None)
      ensures Widgets() == old(Widgets()).(tabs := FixedTabs, shown := shown)
      ensures Effects() == old(Effects())
    {
      DeleteRemovableKeepsFixed(tabs);
      tabs := DeleteRemovable(tabs);
      if shown != Some(MainId) && shown != Some(SettingsId) {
        shown := None;
      }
    }

    /** `groups.reset(models)` by a collaborator: the collection is replaced without any
        `add` event, so the new groups get no tab; the tabs are in step exactly when the
        collection is left empty. */
    method ResetGroups(models: seq<Group>)
      requires Valid() && UniqueIds(models) && AvoidsFixedIds(models)
      modifies this, chart
      ensures Valid()
      ensures chart.Record() == old(chart.Record()).(groups := models)
      ensures tabs == FixedTabs
      ensures shown == (if old(shown) == Some(MainId) || old(shown) == Some(SettingsId) then old(shown) else None)
      ensures Widgets() == old(Widgets()).(tabs := FixedTabs, shown := shown)
      ensures Effects() == old(Effects())
      ensures TabsInStep() <==> models == []
    {
      chart.groups := models;
      OnGroupsReset();
      assert |LabeledTabs(models)| == |models|;
    }

    /** A collaborator (the group view) sets attribute `name` of the group with id `id`;
        a changed `key` fires `change:key`, whose handler relabels every group tab. */
    method SetGroupAttribute(id: string, name: string, value: string)
      requires Valid() && name != "id"
      modifies this, chart
      ensures Valid()
      ensures chart.Record() == old(chart.Record()).(groups := SetAttribute(old(chart.groups), id, name, value))
      ensures tabs == if KeyChanges(old(chart.groups), id, name, value) then RelabelFrom(old(tabs), chart.groups, 0)
                      else old(tabs)
      ensures Widgets() == old(Widgets()).(tabs := tabs)
      ensures Effects() == old(Effects())
      ensures old(TabsInStep()) ==> TabsInStep()
    {
      var gs := chart.groups;
      var fires := KeyChanges(gs, id, name, value);
      SetAttributeInStep(tabs, gs, id, name, value);
      chart.groups := SetAttribute(gs, id, name, value);
      if fires {
        RefreshGroupKey();
      }
    }

    /** `_resetChart`: a fresh id, the default type and title, the configured dataset,
        and the "back" operation hidden. Groups and the definition are left alone. */
    method ResetChart(newId: string)
      requires Valid()
      modifies this, chart
      ensures Valid()
      ensures chart.Record() == old(chart.Record()).(id := newId, chartType := DefaultType,
                                                     datasetId := datasetId, title := DefaultTitle)
      ensures !backVisible
      ensures picker == (if old(chart.chartType) != DefaultType then DefaultType else old(picker))
      ensures old(chart.title) != DefaultTitle ==>
                (portletTitle == DefaultTitle && titleField == DefaultTitle &&
                 titleFieldWrites == old(titleFieldWrites) + (if old(titleField) != DefaultTitle then 1 else 0))
      ensures old(chart.title) == DefaultTitle ==>
                (portletTitle == old(portletTitle) && titleField == old(titleField) &&
                 titleFieldWrites == old(titleFieldWrites))
      ensures Widgets() == old(Widgets()).(backVisible := false, picker := picker, portletTitle := portletTitle,
                                           titleField := titleField, titleFieldWrites := titleFieldWrites)
      ensures Effects() == old(Effects())
      ensures old(TabsInStep()) ==> TabsInStep()
    {
      chart.id := newId;
      chart.datasetId := datasetId;
      SetType(DefaultType);
      SetTitle(DefaultTitle);
      backVisible := false;
    }

    /** `_saveChart`. The picker's type, the field's title and the time are written into
        the chart first, whatever follows. With no group: a notice, a new group whose tab
        is shown, and nothing else. Otherwise the groups are scanned in order; in the
        first one bound to the sentinel for a role of the definition the scan stops
        looking, a danger message is set and that group's tab shown. With no such group,
        the host goes to the viewer and one task is deferred. An undefined definition
        throws when the first group is scanned. */
    method Save(now: string, uid: string) returns (outcome: SaveOutcome)
      requires Valid()
      requires |chart.groups| == 0 ==> IsFreshId(uid)
      modifies this, chart
      ensures Valid()
      ensures outcome == SaveVerdict(old(chart.groups), old(chart.definition))
      // the snapshot, on every path
      ensures chart.chartType == old(picker) && chart.title == old(titleField) && chart.date == Some(now)
      ensures picker == old(picker) && titleField == old(titleField) && titleFieldWrites == old(titleFieldWrites)
      ensures portletTitle == (if old(chart.title) != old(titleField) then old(titleField) else old(portletTitle))
      ensures backVisible == old(backVisible)
      ensures outcome == NeedsGroup ==>
        chart.Record() == old(chart.Record()).(chartType := old(picker), title := old(titleField), date := Some(now),
                                               groups := [NewGroup(uid, groupDefaults)], modified := true) &&
        message == Some(Message(Unspecified, NoGroupsText)) && shown == Some(uid) &&
        tabs == RelabelFrom(old(tabs) + [Tab(uid, None, true)], chart.groups, 0) &&
        |tabs| == |old(tabs)| + 1 &&
        Effects() == old(Effects())
      ensures outcome != NeedsGroup ==>
        chart.Record() == old(chart.Record()).(chartType := old(picker), title := old(titleField), date := Some(now)) &&
        tabs == old(tabs)
      ensures outcome.Rejected? ==>
        message == Some(Message(Danger, MissingColumnsText)) &&
        shown == Some(old(chart.groups)[outcome.index].id) &&
        Effects() == old(Effects())
      ensures outcome == Drawn ==>
        message == old(message) && shown == old(shown) &&
        Effects() == old(Effects()).(navigations := old(navigations) + [ViewerView],
                                     pending := old(pending) + [PersistAndRedraw])
      ensures outcome == Threw ==>
        message == old(message) && shown == old(shown) && Effects() == old(Effects())
      ensures old(TabsInStep()) ==> TabsInStep()
    {
      Snapshot(now);
      if |chart.groups| == 0 {
        RequestGroup(uid);
        outcome := NeedsGroup;
        return;
      }
      // the scan of the first group reads `columns` of the definition
      if chart.definition.None? {
        outcome := Threw;
        return;
      }
      var columns := chart.definition.value.columns;
      var valid := ScanGroups(columns);
      if valid {
        navigations := navigations + [ViewerView];
        pending := pending + [PersistAndRedraw];
        outcome := Drawn;
      } else {
        outcome := Rejected(FirstOffender(chart.groups, columns).value);
      }
    }

    /** The save action without groups: the notice, a new group, and its tab shown. */
    method RequestGroup(uid: string)
      requires Valid() && IsFreshId(uid)
      modifies this, chart
      ensures Valid()
      ensures chart.Record() == old(chart.Record()).(groups := old(chart.groups) + [NewGroup(uid, groupDefaults)],
                                                     modified := true)
      ensures tabs == RelabelFrom(old(tabs) + [Tab(uid, None, true)], chart.groups, 0)
      ensures |tabs| == |old(tabs)| + 1
      ensures Widgets() == old(Widgets()).(tabs := tabs, message := Some(Message(Unspecified, NoGroupsText)),
                                           shown := Some(uid))
      ensures Effects() == old(Effects())
      ensures old(TabsInStep()) ==> TabsInStep()
    {
      message := Some(Message(Unspecified, NoGroupsText));
      var g := AddGroupModel(uid);
      shown := Some(g.id);
    }

    /** The first step of the save action: `chart.set` of the picker's type, the
        field's title and the time, with the change events that follow. */
    method Snapshot(now: string)
      modifies this, chart
      ensures chart.Record() == old(chart.Record()).(chartType := old(picker), title := old(titleField), date := Some(now))
      ensures Widgets() == old(Widgets()).(portletTitle := if old(chart.title) != old(titleField) then old(titleField)
                                                          else old(portletTitle))
      ensures Effects() == old(Effects())
    {
      SetType(picker);
      SetTitle(titleField);
      chart.date := Some(now);
    }

    /** The loop of the save action over the groups, in collection order: once a group
        is found bound to the sentinel, `valid` is false and later groups are skipped.
        The message and the shown tab are those the first offending group set. */
    method ScanGroups(columns: seq<string>) returns (valid: bool)
      modifies this
      ensures valid <==> FirstOffender(chart.groups, columns).None?
      ensures valid ==> Widgets() == old(Widgets())
      ensures !valid ==> Widgets() == old(Widgets()).(message := Some(Message(Danger, MissingColumnsText)),
                                        shown := Some(chart.groups[FirstOffender(chart.groups, columns).value].id))
      ensures Effects() == old(Effects())
    {
      var gs := chart.groups;
      valid := true;
      var i := 0;
      while i < |gs|
        invariant 0 <= i <= |gs|
        invariant valid <==> FirstOffender(gs[..i], columns).None?
        invariant valid ==> Widgets() == old(Widgets())
        invariant !valid ==> Widgets() == old(Widgets()).(message := Some(Message(Danger, MissingColumnsText)),
                                           shown := Some(gs[FirstOffender(gs[..i], columns).value].id))
        invariant Effects() == old(Effects())
      {
        var g := gs[i];
        assert gs[..i + 1] == gs[..i] + [g];
        FirstOffenderStep(gs[..i], g, columns);
        if valid {
          var offends := CheckGroup(g, columns);
          valid := !offends;
        }
        i := i + 1;
      }
      assert gs[..i] == gs;
    }

    /** The inner loop of the save action over the roles of the definition: every role
        bound to the sentinel sets the danger message and shows the group's tab. */
    method CheckGroup(g: Group, columns: seq<string>) returns (offends: bool)
      modifies this
      ensures offends <==> Offends(g, columns)
      ensures !offends ==> Widgets() == old(Widgets())
      ensures offends ==> Widgets() == old(Widgets()).(message := Some(Message(Danger, MissingColumnsText)),
                                                       shown := Some(g.id))
      ensures Effects() == old(Effects())
    {
      offends := false;
      var j := 0;
      while j < |columns|
        invariant 0 <= j <= |columns|
        invariant offends <==> exists c | 0 <= c < j :: IsNullAt(g, columns[c])
        invariant !offends ==> Widgets() == old(Widgets())
        invariant offends ==> Widgets() == old(Widgets()).(message := Some(Message(Danger, MissingColumnsText)),
                                                           shown := Some(g.id))
        invariant Effects() == old(Effects())
      {
        if Attr(g, columns[j]) == Some(NullSentinel) {
          message := Some(Message(Danger, MissingColumnsText));
          shown := Some(g.id);
          offends := true;
        }
        j := j + 1;
      }
    }

    /** The host runs the oldest deferred task: storage saves the chart once and the
        chart's `redraw` event makes the "back" operation visible. */
    method RunDeferred() returns (ran: bool)
      modifies this
      ensures ran <==> old(pending) != []
      ensures ran ==> pending == old(pending)[1..] && saves == old(saves) + 1 &&
                      navigations == old(navigations) && loads == old(loads)
      ensures ran ==> Widgets() == old(Widgets()).(backVisible := true)
      ensures !ran ==> Widgets() == old(Widgets()) && Effects() == old(Effects())
    {
      ran := pending != [];
      if ran {
        match pending[0]
        case PersistAndRedraw =>
          pending := pending[1..];
          saves := saves + 1;
          backVisible := true;
      }
    }

    /** The "back" operation: the host goes to the viewer and reloads from storage
        (what loading does to the chart is the storage's business). */
    method Back()
      modifies this
      ensures Effects() == old(Effects()).(navigations := old(navigations) + [ViewerView], loads := old(loads) + 1)
      ensures Widgets() == old(Widgets())
    {
      navigations := navigations + [ViewerView];
      loads := loads + 1;
    }
  }
}
