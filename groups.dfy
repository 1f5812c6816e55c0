/** Data groups of a chart, the chart-type definition they are checked against, and the
    first-offender rule of the save protocol. */
module Groups {
  import opened Wrappers
  import Labels

  /** The value a group holds for a column role when the dataset has no column of the
      type that role needs. */
  const NullSentinel: string := "__null__"

  /** A group model: its id and its other attributes (`key` and the column bindings,
      role name to dataset column). */
  datatype Group = Group(id: string, attributes: map<string, string>)

  /** A chart-type definition as the registry returns it; only the role names of its
      `columns` object matter here, in the order a `for ... in` loop visits them. A
      definition without `columns` has none. */
  datatype Definition = Definition(columns: seq<string>)

  /** `group.attributes[name]`: the id is an attribute of every model. */
  function Attr(g: Group, name: string): (v: Option<string>)
  {
    if name == "id" then Some(g.id)
    else if name in g.attributes then Some(g.attributes[name])
    else None
  }

  function Key(g: Group): Option<string> { Attr(g, "key") }

  /** `new Group({id: uid})` over the model's defaults. */
  function NewGroup(uid: string, defaults: map<string, string>): (g: Group)
  {
    Group(uid, defaults)
  }

  predicate IsNullAt(g: Group, role: string) { Attr(g, role) == Some(NullSentinel) }

  /** Some role of `columns` is bound to the sentinel in `g`. */
  predicate Offends(g: Group, columns: seq<string>)
  {
    exists c | 0 <= c < |columns| :: IsNullAt(g, columns[c])
  }

  /** The index of the first group, in collection order, that is bound to the sentinel
      for a role of `columns`. */
  function FirstOffender(gs: seq<Group>, columns: seq<string>): (r: Option<nat>)
    ensures r.Some? ==> r.value < |gs| && Offends(gs[r.value], columns)
    ensures r.Some? ==> forall j | 0 <= j < r.value :: !Offends(gs[j], columns)
    ensures r.None? <==> forall j | 0 <= j < |gs| :: !Offends(gs[j], columns)
  {
    if gs == [] then None
    else if Offends(gs[0], columns) then Some(0)
    else match FirstOffender(gs[1..], columns)
      case None => None
      case Some(k) => Some(k + 1)
  }

  /** How the save action ends. */
  datatype SaveOutcome =
    | NeedsGroup          // no group: a group is synthesised and the save stops
    | Rejected(index: nat) // the group at `index` is the first bound to the sentinel
    | Drawn               // navigation to the viewer and the deferred save
    | Threw               // `chart_def.columns` on an undefined definition

  function SaveVerdict(gs: seq<Group>, definition: Option<Definition>): (o: SaveOutcome)
    ensures o == NeedsGroup <==> |gs| == 0
    ensures o == Threw <==> |gs| > 0 && definition.None?
    ensures o.Rejected? ==> |gs| > 0 && definition.Some? && o.index < |gs|
                            && Offends(gs[o.index], definition.value.columns)
                            && forall j | 0 <= j < o.index :: !Offends(gs[j], definition.value.columns)
    ensures o == Drawn <==> |gs| > 0 && definition.Some?
                            && forall j | 0 <= j < |gs| :: !Offends(gs[j], definition.value.columns)
  {
    if |gs| == 0 then NeedsGroup
    else if definition.None? then Threw
    else match FirstOffender(gs, definition.value.columns)
      case Some(k) => Rejected(k)
      case None => Drawn
  }

  /** The first offender depends on the groups only up to and including it: groups
      after it are never looked at. */
  lemma {:induction false} FirstOffenderIgnoresLaterGroups(gs: seq<Group>, more: seq<Group>, columns: seq<string>)
    requires FirstOffender(gs, columns).Some?
    ensures FirstOffender(gs + more, columns) == FirstOffender(gs, columns)
  {
    var k := FirstOffender(gs, columns).value;
    assert (gs + more)[k] == gs[k];
    assert forall j | 0 <= j < k :: (gs + more)[j] == gs[j];
  }

  /** Extending the groups scanned so far by one group keeps an earlier offender and
      otherwise makes the new group the offender exactly when it offends. */
  lemma FirstOffenderStep(gs: seq<Group>, g: Group, columns: seq<string>)
    ensures FirstOffender(gs + [g], columns) ==
      if FirstOffender(gs, columns).Some? then FirstOffender(gs, columns)
      else if Offends(g, columns) then Some(|gs|)
      else None
  {
    if FirstOffender(gs, columns).Some? {
      FirstOffenderIgnoresLaterGroups(gs, [g], columns);
    } else {
      assert forall j | 0 <= j < |gs| :: (gs + [g])[j] == gs[j];
      assert (gs + [g])[|gs|] == g;
    }
  }

  /** All group ids are different, as a collection keyed by id keeps them. */
  predicate UniqueIds(gs: seq<Group>)
  {
    forall i, j | 0 <= i < j < |gs| :: gs[i].id != gs[j].id
  }

  /** The position of the group with id `id`. */
  function IndexOf(gs: seq<Group>, id: string): (r: Option<nat>)
    ensures r.Some? ==> r.value < |gs| && gs[r.value].id == id
    ensures r.Some? ==> forall j | 0 <= j < r.value :: gs[j].id != id
    ensures r.None? <==> forall j | 0 <= j < |gs| :: gs[j].id != id
  {
    if gs == [] then None
    else if gs[0].id == id then Some(0)
    else match IndexOf(gs[1..], id)
      case None => None
      case Some(k) => Some(k + 1)
  }

  /** `groups.remove(id)`: the collection without the group that has that id. */
  function Without(gs: seq<Group>, id: string): seq<Group>
  {
    if gs == [] then []
    else if gs[0].id == id then Without(gs[1..], id)
    else [gs[0]] + Without(gs[1..], id)
  }

  /** Removing by id keeps exactly the groups with another id. */
  lemma {:induction false} WithoutMembers(gs: seq<Group>, id: string)
    ensures forall g :: g in Without(gs, id) <==> g in gs && g.id != id
    decreases |gs|
  {
    if gs != [] {
      WithoutMembers(gs[1..], id);
      assert gs == [gs[0]] + gs[1..];
    }
  }

  /** An id no group has is not the id of a group left after a removal. */
  lemma {:induction false} WithoutAvoids(gs: seq<Group>, id: string, x: string)
    requires forall j | 0 <= j < |gs| :: gs[j].id != x
    ensures forall i | 0 <= i < |Without(gs, id)| :: Without(gs, id)[i].id != x
    decreases |gs|
  {
    if gs != [] {
      WithoutAvoids(gs[1..], id, x);
    }
  }

  /** Removing the id of a group that is there takes out exactly one group when ids
      are unique, and the ids left are still unique. */
  lemma {:induction false} WithoutPresent(gs: seq<Group>, id: string)
    requires UniqueIds(gs)
    ensures UniqueIds(Without(gs, id))
    ensures |Without(gs, id)| == if IndexOf(gs, id).Some? then |gs| - 1 else |gs|
    decreases |gs|
  {
    if gs != [] {
      var tail := gs[1..];
      assert UniqueIds(tail);
      WithoutPresent(tail, id);
      var w := Without(tail, id);
      if gs[0].id != id {
        assert Without(gs, id) == [gs[0]] + w;
        WithoutAvoids(tail, id, gs[0].id);
        assert IndexOf(gs, id).Some? <==> IndexOf(tail, id).Some?;
      } else {
        assert Without(gs, id) == w;
        assert IndexOf(tail, id).None?;
      }
    }
  }

  /** The group with id `id` gets `value` for attribute `name`; nothing else changes. */
  function SetAttribute(gs: seq<Group>, id: string, name: string, value: string): (r: seq<Group>)
    requires name != "id"
  {
    seq(|gs|, i requires 0 <= i < |gs| =>
      if gs[i].id == id then gs[i].(attributes := gs[i].attributes[name := value]) else gs[i])
  }

  function Ids(gs: seq<Group>): (r: seq<string>)
  {
    seq(|gs|, i requires 0 <= i < |gs| => gs[i].id)
  }
}
