# Chart editor state model

A Dafny model of the state logic of the charts plugin's editor
(`config/plugins/visualizations/charts/static/views/editor.js`). The editor edits one
chart in place: its id, type, title, dataset, `modified` flag, the type's definition
and an ordered collection of data groups. Around the chart it keeps a tab list (the
fixed `main` and `settings` tabs plus one removable tab per group), the tab it last
showed, the portlet's "back" operation, a message, the type picker, the title field
and the portlet heading. Its save action snapshots the picker and title into the chart,
insists on at least one group, scans the groups in order for the first one bound to
the `__null__` sentinel on a role of the definition's `columns`, and on success goes to
the viewer and defers "save to storage, then redraw".

Modules:

- `Wrappers` (`wrappers.dfy`): `Option`, standing for JavaScript's `undefined`.
- `Labels` (`labels.dfy`): the decimal numbers and `<position>: <key>` titles of group
  tabs (`KeyText` gives a key's text), and `ParseLabel`, their inverse.
- `Groups` (`groups.dfy`): groups, definitions, the sentinel, attribute lookup (`Attr`,
  where `id` is always an attribute), new groups (`NewGroup`), attribute updates
  (`SetAttribute`), the first-offender rule (`FirstOffender`) and the verdict of a save
  (`SaveVerdict`).
- `TabList` (`tablist.dfy`): the tab list and the tab widget's operations (`Retitle`,
  `Delete`, `DeleteRemovable`), the relabelling walk `RelabelFrom`, and `InStep`: the tabs
  are exactly the fixed tabs followed by `LabeledTabs`, one tab per group, in group
  order, titled by position and key.
- `ChartEditor` (`editor.dfy`): class `Chart` (the chart record the editor mutates) and
  class `Editor`, one method per handler. The effects handed to the host are fields:
  `navigations` (calls to `go`), `pending` (the FIFO of deferred tasks), `saves` and
  `loads` (storage calls). Each method's contract gives the whole new state in terms of
  the old one (`Record`, `Widgets` and `Effects` group the fields) and says whether the
  tabs stay in step with the groups.
- `Scenarios` (`scenarios.dfy`): client sessions. They check, from the contracts alone,
  that a save with a sentinel-bound first group stops there, that a complete save
  navigates and defers one task that saves once, and that a save without groups adds
  exactly one group and its tab.

Chart `set` calls fire `change:<attribute>` only when the value changes, as the model
library does. The model follows that rule. So a reset whose title is already
`New Chart` leaves the heading alone. The picker is only resynchronised when the type
really changes.

Behaviour of `editor.js` that the model keeps:

- With an undefined definition (an unknown type), the group scan evaluates
  `chart_def.columns` and throws a `TypeError`. It does not succeed vacuously. `Save`
  returns `Threw`. The chart then holds the snapshot and nothing else has happened.
  Only a definition whose `columns` is absent or empty passes every group vacuously,
  whatever the groups hold.
- `_refreshTitle` writes the portlet heading every time. Only the input field is
  guarded by the "differs" test.
- The constructor hides `back` on the tab widget (line 93), not on the portlet. The
  portlet's `back` is hidden by the reset that the constructor runs next.
- The reset does not touch `definition`, and neither does the save's snapshot of the
  picker's type. `_resetChart` sets the type to `nvd3_bar` and leaves the previous
  type's definition in place.
- `group.get('key', '')` ignores its second argument. A group without a `key`
  attribute is therefore labelled `<n>: undefined`. Only the empty key becomes `Data label`.

## Model

| member | source | states |
|---|---|---|
| `ChartEditor.Editor.constructor` | config/plugins/visualizations/charts/static/views/editor.js:10-105 | The editor starts with exactly the `main` and `settings` tabs, no message, no host effects, and "back" hidden. The chart is reset (new id, `nvd3_bar`, `New Chart`, configured dataset); the heading and field show the title only if the reset changed it; groups the chart already had get no tab. |
| `ChartEditor.Editor.RefreshTitle` | config/plugins/visualizations/charts/static/views/editor.js:118-124 | The heading always equals the chart title. The field ends equal to it and is written one time exactly when it differed, so a second refresh writes nothing. |
| `ChartEditor.Editor.SetTitle` | config/plugins/visualizations/charts/static/views/editor.js:96 | Only the chart's title changes. The title refresh runs exactly when the title changed. |
| `ChartEditor.Editor.SetType` | config/plugins/visualizations/charts/static/views/editor.js:97 | Only the chart's type changes. The picker follows it exactly when it changed. |
| `ChartEditor.Editor.ChangeType` | config/plugins/visualizations/charts/static/views/editor.js:41-50 | The picker holds the clicked type. Definition is the registry's entry (None for an unknown type, no rejection), settings are emptied, type set, `modified` true; groups, tabs and host effects untouched, so a later save keeps the clicked type. |
| `ChartEditor.Editor.EditTitle` | config/plugins/visualizations/charts/static/views/editor.js:66-70 | The typed value becomes the chart title. The field is not rewritten, and the heading follows when the title changed. |
| `ChartEditor.Editor.RefreshGroupKey` | config/plugins/visualizations/charts/static/views/editor.js:127-134 | The loop with its running counter leaves the tabs equal to `RelabelFrom(old tabs, groups, 0)`. Tabs that mirrored the groups end in step: the tab of the group at 1-based position i is titled `i: key text`. |
| `ChartEditor.Editor.OnGroupAdded` | config/plugins/visualizations/charts/static/views/editor.js:144-154 | Exactly one removable tab with the group's id is appended, then all tabs are relabelled and `modified` is set. |
| `ChartEditor.Editor.AddGroupModel` | config/plugins/visualizations/charts/static/views/editor.js:137-141 | A group with the fresh id is appended to the collection. Tab count grows by exactly one, `modified` is true, and tabs in step stay in step. |
| `ChartEditor.Editor.AddDataTab` | config/plugins/visualizations/charts/static/views/editor.js:58-62 | The new group is appended, its tab is added and the tabs relabelled (`RelabelFrom` of the old tabs plus the new one), and that tab is shown. |
| `ChartEditor.Editor.OnGroupRemoved` | config/plugins/visualizations/charts/static/views/editor.js:157-161 | The group's tab is deleted, the tabs relabelled and `modified` set. The fixed tabs survive. |
| `ChartEditor.Editor.RemoveGroup` | config/plugins/visualizations/charts/static/views/editor.js:147-151 | Removes the group iff its id is in the collection (one group fewer); then exactly its tab goes, tabs in step stay in step (one tab fewer), `modified` is true, and a shown tab that was deleted is no longer shown; an unknown id changes nothing. |
| `ChartEditor.Editor.OnGroupsReset` | config/plugins/visualizations/charts/static/views/editor.js:164-166 | Only removable tabs are deleted: the tab list becomes exactly `main`, `settings`. |
| `ChartEditor.Editor.ResetGroups` | config/plugins/visualizations/charts/static/views/editor.js:102 | The collection becomes the given models without `add` events. The tabs are the two fixed ones, a shown group tab is no longer shown, and the tabs are in step iff the new collection is empty. |
| `ChartEditor.Editor.SetGroupAttribute` | config/plugins/visualizations/charts/static/views/editor.js:103 | Only the group with the id gets the value. A changed key relabels every group tab, whichever group changed; any other set leaves the tab list as it was. Tabs in step stay in step. |
| `ChartEditor.Editor.ResetChart` | config/plugins/visualizations/charts/static/views/editor.js:169-177 | New id, type `nvd3_bar`, title `New Chart`, configured dataset_id, and "back" hidden. Groups, definition, tabs and host effects are unchanged. |
| `ChartEditor.Editor.Save` | config/plugins/visualizations/charts/static/views/editor.js:180-213 | The outcome is `SaveVerdict` of the old groups and definition. Every path first snapshots picker type, field title and time. No groups: a notice, exactly one new group and one new tab (shown), no navigation and no task. First offender k: danger message, tab k shown, no navigation and no task. Clean: one `viewer` navigation and exactly one deferred task. |
| `ChartEditor.Editor.RequestGroup` | config/plugins/visualizations/charts/static/views/editor.js:188-191 | With no group: the notice is set, one group with the fresh id is added with its tab, and that tab is shown. Nothing is handed to the host. |
| `ChartEditor.Editor.Snapshot` | config/plugins/visualizations/charts/static/views/editor.js:182-186 | The chart's type, title and date become the picker's type, the field's title and the time. The heading follows a changed title. |
| `ChartEditor.Editor.ScanGroups` | config/plugins/visualizations/charts/static/views/editor.js:193-205 | `valid` iff no group offends. Otherwise the danger message is set and the shown tab is the first offender's, even when later groups offend too. |
| `ChartEditor.Editor.CheckGroup` | config/plugins/visualizations/charts/static/views/editor.js:197-203 | Reports a group as offending iff some role of `columns` is bound to `__null__` in it. Only then are the message and the shown tab set. |
| `ChartEditor.Editor.RunDeferred` | config/plugins/visualizations/charts/static/views/editor.js:208-211 | Runs the oldest task iff one is pending. That is one storage save, followed by the `redraw` handler (line 99) making "back" visible. Nothing else changes. |
| `ChartEditor.Editor.Back` | config/plugins/visualizations/charts/static/views/editor.js:31-34 | One `viewer` navigation and one storage load. The widgets are unchanged. |
| `Groups.FirstOffender` | config/plugins/visualizations/charts/static/views/editor.js:193-205 | `Some(k)` iff group k offends and no earlier group does. `None` iff no group offends. |
| `Groups.SaveVerdict` | config/plugins/visualizations/charts/static/views/editor.js:187-212 | `NeedsGroup` iff there are no groups. `Threw` iff there are groups and the definition is undefined. `Rejected(k)` names the first offender. `Drawn` iff there are groups, a definition, and no group offends. |
| `Groups.FirstOffenderIgnoresLaterGroups` | config/plugins/visualizations/charts/static/views/editor.js:195-196 | Once an offender is found, appending groups after it does not change who is reported. |
| `Groups.FirstOffenderStep` | config/plugins/visualizations/charts/static/views/editor.js:195-205 | One more iteration of group scan: earlier offender kept, else the new group is the offender iff it offends. |
| `Groups.IndexOf` | config/plugins/visualizations/charts/static/views/editor.js:150 | The position of the first group with the id, or None iff no group has it. |
| `Groups.WithoutMembers` | config/plugins/visualizations/charts/static/views/editor.js:150 | `groups.remove(id)` keeps exactly the groups with another id. |
| `Groups.WithoutPresent` | config/plugins/visualizations/charts/static/views/editor.js:150 | Removing a present id takes out exactly one group, and ids stay unique. |
| `Labels.DecimalString` | config/plugins/visualizations/charts/static/views/editor.js:132 | The counter is written as a non-empty string of digits with no leading zero. |
| `Labels.DecimalRoundTrip` | config/plugins/visualizations/charts/static/views/editor.js:132 | The written counter denotes the counter. |
| `Labels.ParseLabelRoundTrip` | config/plugins/visualizations/charts/static/views/editor.js:132 | Parsing a tab label gives back its position and key text. |
| `Labels.LabelsDistinguishPositions` | config/plugins/visualizations/charts/static/views/editor.js:129-133 | Tabs at different positions never share a label, whatever their keys. |
| `TabList.DeleteMembers` | config/plugins/visualizations/charts/static/views/editor.js:158 | `tabs.del(id)` keeps exactly the tabs with another id. |
| `TabList.DeleteRemovableMembers` | config/plugins/visualizations/charts/static/views/editor.js:165 | `tabs.delRemovable()` keeps exactly the tabs without a delete handler. |
| `TabList.DeleteRemovableKeepsFixed` | config/plugins/visualizations/charts/static/views/editor.js:72-87 | Deleting the removable tabs leaves exactly `main` (Start) and `settings` (Configuration). |
| `TabList.DeleteKeepsShape` | config/plugins/visualizations/charts/static/views/editor.js:158 | Deleting a group's tab keeps the fixed tabs in front and only removable tabs after them. |
| `TabList.RelabelAt` | config/plugins/visualizations/charts/static/views/editor.js:129-133 | After the walk, a tab whose id is that of the k-th group carries position counter+k+1 and that group's key. Any other tab is untouched. |
| `TabList.RelabelKeepsShape` | config/plugins/visualizations/charts/static/views/editor.js:127-134 | Relabelling keeps the tab count, every id and removable flag, and both fixed tabs. |
| `TabList.RelabelMirrors` | config/plugins/visualizations/charts/static/views/editor.js:127-134 | Tabs mirroring the groups are in step after relabelling: every group at 1-based position i has title `i: key text`. |
| `TabList.AppendMirrors` | config/plugins/visualizations/charts/static/views/editor.js:144-151 | Appending a group together with its removable tab keeps tabs mirroring groups. |
| `TabList.DeleteMirrors` | config/plugins/visualizations/charts/static/views/editor.js:157-161 | Deleting a group's tab together with the group keeps tabs mirroring groups. |
| `TabList.SetAttributeKeepsLabels` | config/plugins/visualizations/charts/static/views/editor.js:103 | An attribute set that does not change a key leaves every group tab label as it was. |
| `TabList.SetAttributeInStep` | config/plugins/visualizations/charts/static/views/editor.js:103 | An attribute set keeps ids unique and clear of the fixed ids. Tabs in step keep mirroring the groups, and stay in step unless a key really changed. |

## Left out

- Rendering and DOM plumbing: `Portlet`, `Tabs.View`, `Ui.Input`, `Ui.Message`, `setElement`,
  `show`/`hide` (lines 107-115) and CSS classes. The widgets are abstract fields.
- Internals of `TypesView`, `SettingsView`, `GroupView` and the chart and group models. These
  are not part of this model. `chart.settings` is a map that `ChangeType` empties. The
  registry is a partial map. The group model's defaults are the `groupDefaults` parameter.
  The model assumes that a click on the picker selects the clicked type before `onchange`
  runs, and that setting the picker's value does not call its `onchange`.
- `ondblclick` of the type picker (lines 51-53). It calls the save handler unchanged, which is
  `Save`; no separate member.
- `Utils.uid()` and `Utils.time()`: parameters. A uid passed to `AddGroupModel`, `AddDataTab`
  and `Save` (when there are no groups) must differ from every group and tab id and from
  `main`/`settings` (`IsFreshId`), which is what a unique-id generator supplies.
- `ResetGroups`: the collection keeps unique ids that are not `main`/`settings`.
  That is a requirement, matching a collection keyed by id. Merging of a duplicate id on
  `groups.add` is not modelled.
- The tab widget's own choices are not modelled, because that widget is not visible here:
  which tab it shows first, and which after the shown tab is deleted (`shown` becomes None).
  Tabs are assumed to be appended at the end. A title set for a missing id changes nothing.
- `app.storage.save`/`load`, `app.go` and `app.deferred.execute` as I/O and scheduling. They
  are recorded effects: counters, a navigation log and a FIFO of tasks. A task runs only when
  `RunDeferred` is called. What loading does to the chart is not modelled, and neither are other
  listeners of `redraw` (the viewer).
- `Save`: the throw on an undefined definition is returned as `Threw`. The exception's
  propagation to the click handler's caller is not modelled. The check is made before the scan
  begins, which is the same moment, because there is at least one group by then.
- `console.debug` logging.
- Attribute values are strings. Roles are the own keys of `columns`, visited in declaration order.
- `config/plugins/visualizations/charts/static/charts/nvd3_stackedarea/config.js`: static data
  merged with a base configuration that is not part of this model. It has no logic.
- Concurrency: none.
