/** The tab list of the editor as abstract state: the fixed `main` and `settings` tabs
    and one removable tab per group, and the operations the editor performs on it
    (add at the end, delete by id, delete every removable tab, set a title by id). */
module TabList {
  import opened Wrappers
  import opened Groups
  import Labels

  const MainId: string := "main"
  const SettingsId: string := "settings"

  /** A tab; `title` is None for a tab added without one, and `removable` says
      that the tab was added with a delete handler. */
  datatype Tab = Tab(id: string, title: Option<string>, removable: bool)

  const MainTab: Tab := Tab(MainId, Some("Start"), false)
  const SettingsTab: Tab := Tab(SettingsId, Some("Configuration"), false)
  const FixedTabs: seq<Tab> := [MainTab, SettingsTab]

  /** `tabs.title(id, title)`: the tab with that id gets the title; an id without a
      tab changes nothing. */
  function Retitle(tabs: seq<Tab>, id: string, title: string): (r: seq<Tab>)
  {
    seq(|tabs|, i requires 0 <= i < |tabs| =>
      if tabs[i].id == id then tabs[i].(title := Some(title)) else tabs[i])
  }

  /** `tabs.del(id)`: the tab list without the tab that has that id. */
  function Delete(tabs: seq<Tab>, id: string): seq<Tab>
  {
    if tabs == [] then []
    else if tabs[0].id == id then Delete(tabs[1..], id)
    else [tabs[0]] + Delete(tabs[1..], id)
  }

  /** `tabs.delRemovable()`: the tab list without its removable tabs. */
  function DeleteRemovable(tabs: seq<Tab>): seq<Tab>
  {
    if tabs == [] then []
    else if tabs[0].removable then DeleteRemovable(tabs[1..])
    else [tabs[0]] + DeleteRemovable(tabs[1..])
  }

  /** Deleting by id keeps exactly the tabs with another id. */
  lemma {:induction false} DeleteMembers(tabs: seq<Tab>, id: string)
    ensures forall t :: t in Delete(tabs, id) <==> t in tabs && t.id != id
    decreases |tabs|
  {
    if tabs != [] {
      DeleteMembers(tabs[1..], id);
      assert tabs == [tabs[0]] + tabs[1..];
    }
  }

  /** Deleting the removable tabs keeps exactly the tabs without a delete handler. */
  lemma {:induction false} DeleteRemovableMembers(tabs: seq<Tab>)
    ensures forall t :: t in DeleteRemovable(tabs) <==> t in tabs && !t.removable
    decreases |tabs|
  {
    if tabs != [] {
      DeleteRemovableMembers(tabs[1..]);
      assert tabs == [tabs[0]] + tabs[1..];
    }
  }

  /** What the relabelling loop leaves: walking the groups in order with a running
      counter, the tab of each group gets `<counter>: <key text>`. */
  function RelabelFrom(tabs: seq<Tab>, gs: seq<Group>, counter: nat): seq<Tab>
    decreases |gs|
  {
    if gs == [] then tabs
    else RelabelFrom(Retitle(tabs, gs[0].id, Labels.Label(counter + 1, Key(gs[0]))), gs[1..], counter + 1)
  }

  /** The group tabs as they should be: one per group, in group order, labelled by the
      group's 1-based position and key. */
  function LabeledTabs(gs: seq<Group>): (r: seq<Tab>)
  {
    seq(|gs|, i requires 0 <= i < |gs| => Tab(gs[i].id, Some(Labels.Label(i + 1, Key(gs[i]))), true))
  }

  /** The tab list is exactly the fixed tabs followed by the labelled group tabs. */
  predicate InStep(tabs: seq<Tab>, gs: seq<Group>)
  {
    tabs == FixedTabs + LabeledTabs(gs)
  }

  /** The removable tabs `ts` are one per group of `gs`, in the same order. */
  predicate Follows(ts: seq<Tab>, gs: seq<Group>)
  {
    |ts| == |gs| && forall i | 0 <= i < |gs| :: ts[i].id == gs[i].id && ts[i].removable
  }

  /** The fixed tabs followed by one removable tab per group, titles aside. */
  predicate Mirrors(tabs: seq<Tab>, gs: seq<Group>)
  {
    |tabs| >= 2 && tabs[..2] == FixedTabs && Follows(tabs[2..], gs)
  }

  /** No group uses the id of a fixed tab. */
  predicate AvoidsFixedIds(gs: seq<Group>)
  {
    forall i | 0 <= i < |gs| :: gs[i].id != MainId && gs[i].id != SettingsId
  }

  /** One tab after relabelling: a tab whose id is the id of the k-th group (0-based)
      is titled with position counter + k + 1; every other tab is left as it is. */
  function RelabeledTab(t: Tab, gs: seq<Group>, counter: nat): Tab
  {
    match IndexOf(gs, t.id)
    case None => t
    case Some(k) => t.(title := Some(Labels.Label(counter + k + 1, Key(gs[k]))))
  }

  /** The relabelling walk, tab by tab: each tab ends as `RelabeledTab` says. */
  lemma {:induction false} RelabelAt(tabs: seq<Tab>, gs: seq<Group>, counter: nat, p: nat)
    requires UniqueIds(gs) && p < |tabs|
    ensures |RelabelFrom(tabs, gs, counter)| == |tabs|
    ensures RelabelFrom(tabs, gs, counter)[p] == RelabeledTab(tabs[p], gs, counter)
    decreases |gs|
  {
    if gs != [] {
      var next := Retitle(tabs, gs[0].id, Labels.Label(counter + 1, Key(gs[0])));
      assert UniqueIds(gs[1..]);
      RelabelAt(next, gs[1..], counter + 1, p);
      RelabeledTabStep(tabs[p], gs, counter);
    }
  }

  /** One step of the walk on one tab: retitling by the first group and then walking
      the rest, with the counter one further, is walking all the groups. */
  lemma RelabeledTabStep(t: Tab, gs: seq<Group>, counter: nat)
    requires UniqueIds(gs) && gs != []
    ensures RelabeledTab(if t.id == gs[0].id then t.(title := Some(Labels.Label(counter + 1, Key(gs[0])))) else t,
                         gs[1..], counter + 1)
            == RelabeledTab(t, gs, counter)
  {
    var tail := gs[1..];
    if t.id == gs[0].id {
      forall j | 0 <= j < |tail| ensures tail[j].id != gs[0].id {
        assert tail[j] == gs[j + 1];
      }
      assert IndexOf(tail, t.id).None?;
    } else {
      var rest := IndexOf(tail, t.id);
      assert IndexOf(gs, t.id) == if rest.None? then None else Some(rest.value + 1);
      if rest.Some? {
        assert tail[rest.value] == gs[rest.value + 1];
      }
    }
  }

  /** Relabelling leaves the fixed tabs, the ids and the removable flags alone. */
  lemma RelabelKeepsShape(tabs: seq<Tab>, gs: seq<Group>)
    requires UniqueIds(gs) && AvoidsFixedIds(gs)
    requires |tabs| >= 2 && tabs[..2] == FixedTabs
    ensures var r := RelabelFrom(tabs, gs, 0);
      |r| == |tabs| && r[..2] == FixedTabs &&
      forall p | 0 <= p < |tabs| :: r[p].id == tabs[p].id && r[p].removable == tabs[p].removable
  {
    var r := RelabelFrom(tabs, gs, 0);
    forall p | 0 <= p < |tabs| ensures |r| == |tabs| && r[p].id == tabs[p].id && r[p].removable == tabs[p].removable {
      RelabelAt(tabs, gs, 0, p);
    }
    RelabelAt(tabs, gs, 0, 0);
    RelabelAt(tabs, gs, 0, 1);
    assert IndexOf(gs, MainId).None?;
    assert IndexOf(gs, SettingsId).None?;
  }

  /** When the tabs mirror the groups, relabelling puts them in step: every group tab
      is titled by its group's current 1-based position and key. */
  lemma RelabelMirrors(tabs: seq<Tab>, gs: seq<Group>)
    requires UniqueIds(gs) && AvoidsFixedIds(gs) && Mirrors(tabs, gs)
    ensures InStep(RelabelFrom(tabs, gs, 0), gs)
  {
    var r := RelabelFrom(tabs, gs, 0);
    var labeled := LabeledTabs(gs);
    RelabelKeepsShape(tabs, gs);
    forall i | 0 <= i < |gs| ensures r[2..][i] == labeled[i] {
      RelabelGroupTab(tabs, gs, i + 2);
    }
    assert r[2..] == labeled;
    assert r == r[..2] + r[2..];
  }

  /** The tab at position p >= 2 of a mirroring tab list gets the label of group p-2. */
  lemma RelabelGroupTab(tabs: seq<Tab>, gs: seq<Group>, p: nat)
    requires UniqueIds(gs) && Mirrors(tabs, gs) && 2 <= p < |tabs|
    ensures |RelabelFrom(tabs, gs, 0)| == |tabs|
    ensures RelabelFrom(tabs, gs, 0)[p] == Tab(gs[p - 2].id, Some(Labels.Label(p - 1, Key(gs[p - 2]))), true)
  {
    RelabelAt(tabs, gs, 0, p);
    var t := tabs[p];
    assert t == tabs[2..][p - 2];
    assert t.id == gs[p - 2].id && t.removable;
    var k := IndexOf(gs, t.id);
    assert k.Some?;
    assert k.value == p - 2;
  }

  lemma InStepMirrors(tabs: seq<Tab>, gs: seq<Group>)
    requires InStep(tabs, gs)
    ensures Mirrors(tabs, gs)
  {
    assert tabs[..2] == FixedTabs;
    assert tabs[2..] == LabeledTabs(gs);
  }

  /** Adding a group and its removable tab at the ends keeps the tabs mirroring. */
  lemma AppendMirrors(tabs: seq<Tab>, gs: seq<Group>, g: Group, t: Tab)
    requires Mirrors(tabs, gs) && t.id == g.id && t.removable
    ensures Mirrors(tabs + [t], gs + [g])
  {
    assert (tabs + [t])[..2] == tabs[..2];
    assert (tabs + [t])[2..] == tabs[2..] + [t];
  }

  lemma {:induction false} DeleteConcat(a: seq<Tab>, b: seq<Tab>, id: string)
    ensures Delete(a + b, id) == Delete(a, id) + Delete(b, id)
    decreases |a|
  {
    if a != [] {
      assert (a + b)[1..] == a[1..] + b;
      DeleteConcat(a[1..], b, id);
    } else {
      assert a + b == b;
    }
  }

  lemma {:induction false} DeleteFollows(ts: seq<Tab>, gs: seq<Group>, id: string)
    requires Follows(ts, gs)
    ensures Follows(Delete(ts, id), Without(gs, id))
    decreases |gs|
  {
    if gs != [] {
      assert Follows(ts[1..], gs[1..]);
      DeleteFollows(ts[1..], gs[1..], id);
      var dt, dg := Delete(ts[1..], id), Without(gs[1..], id);
      if gs[0].id == id {
        assert Delete(ts, id) == dt;
        assert Without(gs, id) == dg;
      } else {
        assert Delete(ts, id) == [ts[0]] + dt;
        assert Without(gs, id) == [gs[0]] + dg;
        assert forall i | 1 <= i < |dg| + 1 :: ([ts[0]] + dt)[i] == dt[i - 1] && ([gs[0]] + dg)[i] == dg[i - 1];
      }
    }
  }

  /** Deleting a group's tab and the group keeps the tabs mirroring the groups. */
  lemma DeleteMirrors(tabs: seq<Tab>, gs: seq<Group>, id: string)
    requires Mirrors(tabs, gs) && id != MainId && id != SettingsId
    ensures Mirrors(Delete(tabs, id), Without(gs, id))
  {
    assert tabs == tabs[..2] + tabs[2..];
    DeleteConcat(tabs[..2], tabs[2..], id);
    assert tabs[..2] == [MainTab] + [SettingsTab];
    DeleteConcat([MainTab], [SettingsTab], id);
    DeleteFollows(tabs[2..], gs, id);
    var r := Delete(tabs, id);
    assert r[..2] == FixedTabs;
    assert r[2..] == Delete(tabs[2..], id);
  }

  lemma {:induction false} DeleteRemovableConcat(a: seq<Tab>, b: seq<Tab>)
    ensures DeleteRemovable(a + b) == DeleteRemovable(a) + DeleteRemovable(b)
    decreases |a|
  {
    if a != [] {
      assert (a + b)[1..] == a[1..] + b;
      DeleteRemovableConcat(a[1..], b);
    } else {
      assert a + b == b;
    }
  }

  lemma {:induction false} DeleteRemovableAll(ts: seq<Tab>)
    requires forall i | 0 <= i < |ts| :: ts[i].removable
    ensures DeleteRemovable(ts) == []
    decreases |ts|
  {
    if ts != [] {
      DeleteRemovableAll(ts[1..]);
    }
  }

  lemma DeleteRemovableFixed()
    ensures DeleteRemovable(FixedTabs) == FixedTabs
  {
    var s := [SettingsTab];
    assert s[1..] == [];
    assert DeleteRemovable(s) == s;
    assert FixedTabs[1..] == s;
  }

  /** Deleting every removable tab leaves exactly the fixed `main` and `settings` tabs. */
  lemma {:induction false} DeleteRemovableKeepsFixed(tabs: seq<Tab>)
    requires |tabs| >= 2 && tabs[..2] == FixedTabs
    requires forall i | 2 <= i < |tabs| :: tabs[i].removable
    ensures DeleteRemovable(tabs) == FixedTabs
  {
    var rest := tabs[2..];
    assert tabs == FixedTabs + rest;
    DeleteRemovableAfterFixed(rest);
  }

  lemma {:induction false} DeleteRemovableAfterFixed(rest: seq<Tab>)
    requires forall i | 0 <= i < |rest| :: rest[i].removable
    ensures DeleteRemovable(FixedTabs + rest) == FixedTabs
  {
    DeleteRemovableConcat(FixedTabs, rest);
    DeleteRemovableAll(rest);
    DeleteRemovableFixed();
  }

  lemma DeleteFixed(id: string)
    requires id != MainId && id != SettingsId
    ensures Delete(FixedTabs, id) == FixedTabs
  {
    var s := [SettingsTab];
    assert s[1..] == [];
    assert Delete(s, id) == s;
    assert FixedTabs[1..] == s;
  }

  /** Deleting a tab that is not a fixed one keeps the fixed tabs in front and only
      removable tabs after them. */
  lemma {:induction false} DeleteKeepsShape(tabs: seq<Tab>, id: string)
    requires |tabs| >= 2 && tabs[..2] == FixedTabs
    requires forall i | 2 <= i < |tabs| :: tabs[i].removable
    requires id != MainId && id != SettingsId
    ensures var r := Delete(tabs, id);
      |r| >= 2 && r[..2] == FixedTabs && forall i | 2 <= i < |r| :: r[i].removable
  {
    var rest := tabs[2..];
    assert tabs == FixedTabs + rest;
    DeleteConcat(FixedTabs, rest, id);
    DeleteFixed(id);
    DeleteMembers(rest, id);
    var r := Delete(tabs, id);
    assert r == FixedTabs + Delete(rest, id);
    forall i | 2 <= i < |r| ensures r[i].removable {
      assert r[i] == Delete(rest, id)[i - 2];
      assert r[i] in rest;
    }
  }

  /** Tabs in step with some groups mirror any groups with the same ids. */
  lemma InStepMirrorsSameIds(tabs: seq<Tab>, gs: seq<Group>, hs: seq<Group>)
    requires InStep(tabs, gs) && Ids(gs) == Ids(hs)
    ensures Mirrors(tabs, hs)
  {
    InStepMirrors(tabs, gs);
    assert forall i | 0 <= i < |gs| :: gs[i].id == Ids(gs)[i] == Ids(hs)[i] == hs[i].id;
  }

  /** Setting an attribute other than a changed key leaves every group's id and key, and
      so the labelled tabs, as they were. */
  lemma SetAttributeKeepsLabels(gs: seq<Group>, id: string, name: string, value: string)
    requires name != "id" && UniqueIds(gs)
    requires name == "key" ==> forall i | 0 <= i < |gs| :: gs[i].id == id ==> Key(gs[i]) == Some(value)
    ensures LabeledTabs(SetAttribute(gs, id, name, value)) == LabeledTabs(gs)
  {
    var hs := SetAttribute(gs, id, name, value);
    forall i | 0 <= i < |gs| ensures hs[i].id == gs[i].id && Key(hs[i]) == Key(gs[i]) {
    }
  }

  /** Setting an attribute keeps ids, so uniqueness and the fixed tab ids are kept too. */
  lemma SetAttributeKeepsIds(gs: seq<Group>, id: string, name: string, value: string)
    requires name != "id"
    ensures Ids(SetAttribute(gs, id, name, value)) == Ids(gs)
    ensures UniqueIds(gs) ==> UniqueIds(SetAttribute(gs, id, name, value))
    ensures AvoidsFixedIds(gs) ==> AvoidsFixedIds(SetAttribute(gs, id, name, value))
  {
  }

  /** Setting attribute `name` of the group with id `id` to `value` changes that
      group's key: the collection then fires `change:key`. */
  predicate KeyChanges(gs: seq<Group>, id: string, name: string, value: string)
  {
    name == "key" && IndexOf(gs, id).Some? && Key(gs[IndexOf(gs, id).value]) != Some(value)
  }

  /** Setting an attribute of a group keeps ids unique and off the fixed tabs, keeps
      in-step tabs mirroring the groups, and in step unless a key actually changes. */
  lemma SetAttributeInStep(tabs: seq<Tab>, gs: seq<Group>, id: string, name: string, value: string)
    requires name != "id" && UniqueIds(gs) && AvoidsFixedIds(gs)
    ensures UniqueIds(SetAttribute(gs, id, name, value)) && AvoidsFixedIds(SetAttribute(gs, id, name, value))
    ensures InStep(tabs, gs) ==> Mirrors(tabs, SetAttribute(gs, id, name, value))
    ensures InStep(tabs, gs) && !KeyChanges(gs, id, name, value) ==> InStep(tabs, SetAttribute(gs, id, name, value))
  {
    SetAttributeKeepsIds(gs, id, name, value);
    if InStep(tabs, gs) {
      InStepMirrorsSameIds(tabs, gs, SetAttribute(gs, id, name, value));
      var k := IndexOf(gs, id);
      if !KeyChanges(gs, id, name, value) {
        if name == "key" {
          forall i | 0 <= i < |gs| && gs[i].id == id ensures Key(gs[i]) == Some(value) {
            assert k.Some? && k.value == i;
          }
        }
        SetAttributeKeepsLabels(gs, id, name, value);
      }
    }
  }
}
