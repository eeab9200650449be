/** Properties of view migration: tracked field names, complete removal, meaning under moves, undoing a move. */
module ViewsProperties {
  import opened Wrappers
  import opened ViewsMigration

  // ---- Names -------------------------------------------------------------------------------

  // The live fields with the names they had in the previous schema, or none for a field added since. A move starts at
  // a live field; a move and an add land on a name that is not in use.
  ghost predicate IsLegal(live: map<string, Option<string>>, patch: Patch) {
    match patch
    case Move(from, to) => from in live && to !in live
    case Remove(path) => path in live
    case Replace(path, _) => path in live
    case Add(path) => path !in live
  }

  ghost function LiveAfter(live: map<string, Option<string>>, patch: Patch): map<string, Option<string>>
    requires IsLegal(live, patch)
  {
    match patch
    case Move(from, to) => (live - {from})[to := live[from]]
    case Remove(path) => live - {path}
    case Replace(_, _) => live
    case Add(path) => live[path := None]
  }

  ghost predicate AllLegal(live: map<string, Option<string>>, patches: seq<Patch>)
    decreases |patches|, 0
  {
    patches == [] || (AllLegal(live, patches[..|patches| - 1])
                      && IsLegal(LiveAfterAll(live, patches[..|patches| - 1]), patches[|patches| - 1]))
  }

  ghost function LiveAfterAll(live: map<string, Option<string>>, patches: seq<Patch>): map<string, Option<string>>
    requires AllLegal(live, patches)
    decreases |patches|, 1
  {
    if patches == [] then live
    else LiveAfter(LiveAfterAll(live, patches[..|patches| - 1]), patches[|patches| - 1])
  }

  ghost function LiveIn(previous: TableSchema): map<string, Option<string>> {
    if previous.ObjectSchema? then map n | n in previous.properties :: Some(n) else map[]
  }

  ghost predicate Tracks(renames: map<string, string>, live: map<string, Option<string>>) {
    && (forall n | n in live && live[n].Some? :: Resolved(renames, n) == live[n].value)
    && (forall m, n | m in live && n in live && live[m].Some? :: live[m] == live[n] ==> m == n)
  }

  lemma TracksAfter(state: MigrationState, live: map<string, Option<string>>, patch: Patch, previous: TableSchema)
    requires Tracks(state.fieldRenames, live) && IsLegal(live, patch)
    ensures Tracks(Applied(state, patch, previous).fieldRenames, LiveAfter(live, patch))
  {
  }

  // Over any legal patches, adds among them, the rename map resolves every live field of the previous schema to its
  // name there.
  lemma {:induction false} RenamesAreTracked(views: seq<View>, patches: seq<Patch>, previous: TableSchema)
    requires AllLegal(LiveIn(previous), patches)
    ensures Tracks(AppliedAll(MigrationState(views, map[]), patches, previous).fieldRenames,
                   LiveAfterAll(LiveIn(previous), patches))
  {
    if patches != [] {
      var first := patches[..|patches| - 1];
      RenamesAreTracked(views, first, previous);
      TracksAfter(AppliedAll(MigrationState(views, map[]), first, previous), LiveAfterAll(LiveIn(previous), first),
                  patches[|patches| - 1], previous);
    }
  }

  // So a replace drops the filters on such a field exactly when its type in the previous schema and its new type are
  // both known and differ, whatever the field was called; otherwise it changes nothing.
  lemma ReplaceComparesWithThePreviousType(views: seq<View>, patches: seq<Patch>, previous: TableSchema, path: string,
                                           schema: PropertySchema)
    requires AllLegal(LiveIn(previous), patches) && path in LiveAfterAll(LiveIn(previous), patches)
    requires LiveAfterAll(LiveIn(previous), patches)[path].Some?
    ensures var state := AppliedAll(MigrationState(views, map[]), patches, previous);
      var before := FieldType(previous, LiveAfterAll(LiveIn(previous), patches)[path].value);
      && AppliedAll(MigrationState(views, map[]), patches + [Replace(path, schema)], previous).views
         == (if schema.TypedSchema? && before.Some? && before.value != schema.typeName
             then Mapped((v: View) => WithoutFilters(v, FieldPath(path)), state.views)
             else state.views)
  {
    RenamesAreTracked(views, patches, previous);
    var all := patches + [Replace(path, schema)];
    assert all[..|all| - 1] == patches;
  }

  // ---- Added fields ------------------------------------------------------------------------

  // Where a name comes from: traced back through the moves that brought it there.
  ghost function Origin(patches: seq<Patch>, name: string): string
    decreases |patches|
  {
    if patches == [] then name
    else
      var first, last := patches[..|patches| - 1], patches[|patches| - 1];
      if last.Move? && last.to == name then Origin(first, last.from)
      else if last.Move? && last.from == name then name
      else Origin(first, name)
  }

  // Whatever the patches, a replace looks a name up under that origin. It does not notice removes and adds.
  lemma {:induction false} NamesAreTraced(views: seq<View>, patches: seq<Patch>, previous: TableSchema, name: string)
    ensures Resolved(AppliedAll(MigrationState(views, map[]), patches, previous).fieldRenames, name)
         == Origin(patches, name)
  {
    if patches != [] {
      var first, last := patches[..|patches| - 1], patches[|patches| - 1];
      NamesAreTraced(views, first, previous, name);
      if last.Move? {
        NamesAreTraced(views, first, previous, last.from);
      }
    }
  }

  predicate MovesFrom(patch: Patch, name: string) {
    patch.Move? && patch.from == name
  }

  // Some move went to the name, and none left it since.
  ghost predicate LeftAsTarget(patches: seq<Patch>, name: string) {
    exists i :: 0 <= i < |patches| && patches[i].Move? && patches[i].to == name
                && forall j | i < j < |patches| :: !MovesFrom(patches[j], name)
  }

  lemma LeftAsTargetAfter(patches: seq<Patch>, name: string)
    requires patches != []
    ensures var first, last := patches[..|patches| - 1], patches[|patches| - 1];
      LeftAsTarget(patches, name) <==>
        (last.Move? && last.to == name) || (LeftAsTarget(first, name) && !MovesFrom(last, name))
  {
    var first, last := patches[..|patches| - 1], patches[|patches| - 1];
    if last.Move? && last.to == name {
      assert patches[|patches| - 1].to == name;
    } else if LeftAsTarget(first, name) && !MovesFrom(last, name) {
      var i :| 0 <= i < |first| && first[i].Move? && first[i].to == name
               && forall j | i < j < |first| :: !MovesFrom(first[j], name);
      assert patches[i].to == name;
      forall j | i < j < |patches|
        ensures !MovesFrom(patches[j], name)
      {
        assert j < |first| ==> patches[j] == first[j];
      }
    }
    if LeftAsTarget(patches, name) && !(last.Move? && last.to == name) {
      var i :| 0 <= i < |patches| && patches[i].Move? && patches[i].to == name
               && forall j | i < j < |patches| :: !MovesFrom(patches[j], name);
      assert first[i].to == name;
      assert !MovesFrom(patches[|patches| - 1], name);
      forall j | i < j < |first|
        ensures !MovesFrom(first[j], name)
      {
        assert patches[j] == first[j];
      }
    }
  }

  // Exactly those names are in the rename map.
  lemma {:induction false} RenamedNames(views: seq<View>, patches: seq<Patch>, previous: TableSchema, name: string)
    ensures name in AppliedAll(MigrationState(views, map[]), patches, previous).fieldRenames
       <==> LeftAsTarget(patches, name)
  {
    if patches != [] {
      RenamedNames(views, patches[..|patches| - 1], previous, name);
      LeftAsTargetAfter(patches, name);
    }
  }

  ghost predicate NamesPrevious(renames: map<string, string>, live: map<string, Option<string>>,
                                previous: map<string, PropertySchema>) {
    && (forall n | n in renames :: renames[n] in previous)
    && (forall n | n in live :: live[n].Some? && live[n].value in previous)
  }

  lemma {:induction false} RenamesNamePreviousFields(views: seq<View>, patches: seq<Patch>, previous: TableSchema)
    requires previous.ObjectSchema? && AllLegal(LiveIn(previous), patches)
    requires forall i | 0 <= i < |patches| :: !patches[i].Add?
    ensures NamesPrevious(AppliedAll(MigrationState(views, map[]), patches, previous).fieldRenames,
                          LiveAfterAll(LiveIn(previous), patches), previous.properties)
  {
    if patches != [] {
      var first := patches[..|patches| - 1];
      RenamesNamePreviousFields(views, first, previous);
      RenamesAreTracked(views, first, previous);
    }
  }

  // An added field is not tracked: it is taken for a field of the previous schema exactly when the name it is traced
  // to is one. When it is the first one added, that is: when its name was one, or was left as the target of a move.
  lemma AddedFieldIsMistaken(views: seq<View>, patches: seq<Patch>, previous: TableSchema, name: string)
    requires previous.ObjectSchema? && AllLegal(LiveIn(previous), patches + [Add(name)])
    ensures var renames := AppliedAll(MigrationState(views, map[]), patches + [Add(name)], previous).fieldRenames;
      && (Resolved(renames, name) in previous.properties <==> Origin(patches, name) in previous.properties)
      && ((forall i | 0 <= i < |patches| :: !patches[i].Add?) ==>
            (Resolved(renames, name) in previous.properties
             <==> name in previous.properties || LeftAsTarget(patches, name)))
  {
    var all := patches + [Add(name)];
    assert all[..|all| - 1] == patches;
    NamesAreTraced(views, patches, previous, name);
    if forall i | 0 <= i < |patches| :: !patches[i].Add? {
      RenamesNamePreviousFields(views, patches, previous);
      RenamedNames(views, patches, previous, name);
    }
  }

  // A field that was moved on leaves its name behind: after "a" to "b" and "b" to "c", a new "b" is no previous field.
  lemma PassedNameIsNotMistaken(schema: PropertySchema)
    ensures var previous := ObjectSchema(map["a" := schema]);
      var patches := [Move("a", "b"), Move("b", "c")];
      && !LeftAsTarget(patches, "b") && LeftAsTarget(patches, "c")
      && Origin(patches, "b") !in previous.properties && Origin(patches, "c") in previous.properties
  {
    var patches := [Move("a", "b"), Move("b", "c")];
    assert "a" != "b" && "b" != "c" && "a" != "c";
    assert patches[..1] == [Move("a", "b")] && patches[..1][..0] == [];
    assert MovesFrom(patches[1], "b");
    assert patches[1].to == "c";
  }

  // Moving "a" to "b" and adding a new "a": both fields are taken for the previous "a".
  lemma AddedFieldCanShareAnOrigin(schema: PropertySchema)
    ensures var previous := ObjectSchema(map["a" := schema]);
      var renames := AppliedAll(MigrationState([], map[]), [Move("a", "b"), Add("a")], previous).fieldRenames;
      Resolved(renames, "a") == "a" && Resolved(renames, "b") == "a"
  {
    var previous := ObjectSchema(map["a" := schema]);
    var patches := [Move("a", "b"), Add("a")];
    assert patches[..1] == [Move("a", "b")] && patches[..1][..0] == [];
    var moved := Moved(MigrationState([], map[]), "a", "b");
    assert AppliedAll(MigrationState([], map[]), patches[..1], previous) == moved;
    assert AppliedAll(MigrationState([], map[]), patches, previous) == moved;
    assert "a" != "b";
  }

  // ---- Removing ----------------------------------------------------------------------------

  // All conditions of a filter tree, in order.
  function AllConditions(g: FilterGroup): seq<Condition> {
    Conditions(g) + (if g.groups.Present? then Concat(AllConditionsOf(g.groups.list)) else [])
  }

  function AllConditionsOf(groups: seq<FilterGroup>): (r: seq<seq<Condition>>)
    ensures |r| == |groups|
  {
    seq(|groups|, i requires 0 <= i < |groups| => AllConditions(groups[i]))
  }

  lemma {:induction false} FilteredSum<A>(p: A -> bool, a: seq<A>, b: seq<A>)
    ensures Filtered(p, a + b) == Filtered(p, a) + Filtered(p, b)
  {
    if a == [] {
      assert a + b == b;
    } else {
      var first := if p(a[0]) then [a[0]] else [];
      assert (a + b)[1..] == a[1..] + b && (a + b)[0] == a[0];
      FilteredSum(p, a[1..], b);
      assert Filtered(p, a) == first + Filtered(p, a[1..]);
      assert first + (Filtered(p, a[1..]) + Filtered(p, b)) == (first + Filtered(p, a[1..])) + Filtered(p, b);
    }
  }

  lemma {:induction false} FilteredOnly<A>(p: A -> bool, s: seq<A>)
    ensures forall x :: x in Filtered(p, s) <==> x in s && p(x)
  {
    if s != [] {
      FilteredOnly(p, s[1..]);
    }
  }

  function OtherThan(field: string): Condition -> bool {
    (c: Condition) => c.field != field
  }

  lemma FirstGroupConditions(groups: seq<FilterGroup>)
    requires groups != []
    ensures Concat(AllConditionsOf(groups)) == AllConditions(groups[0]) + Concat(AllConditionsOf(groups[1..]))
  {
    assert AllConditionsOf(groups)[1..] == AllConditionsOf(groups[1..]);
  }

  // Dropping empty groups drops no condition.
  lemma {:induction false} DroppedGroupsAreEmpty(groups: seq<FilterGroup>)
    ensures Concat(AllConditionsOf(Filtered(IsNonEmpty, groups))) == Concat(AllConditionsOf(groups))
  {
    if groups != [] {
      DroppedGroupsAreEmpty(groups[1..]);
      FirstGroupConditions(groups);
      var rest := Filtered(IsNonEmpty, groups[1..]);
      if IsNonEmpty(groups[0]) {
        var kept := [groups[0]] + rest;
        assert kept[1..] == rest;
        FirstGroupConditions(kept);
      } else {
        assert AllConditions(groups[0]) == [];
        assert [] + rest == rest;
      }
    }
  }

  lemma {:induction false} RemovedOfGroups(groups: seq<FilterGroup>, field: string)
    requires forall g | g in groups ::
      AllConditions(GroupWithout(g, field)) == Filtered(OtherThan(field), AllConditions(g))
    ensures Concat(AllConditionsOf(GroupsWithout(groups, field)))
         == Filtered(OtherThan(field), Concat(AllConditionsOf(groups)))
  {
    if groups != [] {
      RemovedOfGroups(groups[1..], field);
      FirstGroupConditions(groups);
      FirstGroupConditions(GroupsWithout(groups, field));
      assert GroupsWithout(groups, field)[1..] == GroupsWithout(groups[1..], field);
      hide AllConditions, AllConditionsOf, GroupWithout, Filtered, Concat;
      FilteredSum(OtherThan(field), AllConditions(groups[0]), Concat(AllConditionsOf(groups[1..])));
    } else {
      assert GroupsWithout(groups, field) == [];
    }
  }

  // Removing a field removes exactly its conditions, at every depth, and keeps all others in order.
  lemma {:induction false} RemovalKeepsTheOthers(g: FilterGroup, field: string)
    ensures AllConditions(GroupWithout(g, field)) == Filtered(OtherThan(field), AllConditions(g))
    ensures forall c | c in AllConditions(GroupWithout(g, field)) :: c.field != field
  {
    forall h | h in Groups(g)
      ensures AllConditions(GroupWithout(h, field)) == Filtered(OtherThan(field), AllConditions(h))
    {
      RemovalKeepsTheOthers(h, field);
    }
    var removed := GroupWithout(g, field);
    RemovedOfGroups(Groups(g), field);
    DroppedGroupsAreEmpty(GroupsWithout(Groups(g), field));
    assert Conditions(removed) == Filtered(OtherThan(field), Conditions(g)) by {
      if g.conditions.Some? {
        SamePredicate(field, g.conditions.value);
      }
    }
    assert Groups(removed) == Filtered(IsNonEmpty, GroupsWithout(Groups(g), field));
    FilteredSum(OtherThan(field), Conditions(g), Concat(AllConditionsOf(Groups(g))));
    FilteredOnly(OtherThan(field), AllConditions(g));
  }

  lemma {:induction false} SamePredicate(field: string, s: seq<Condition>)
    ensures Filtered((c: Condition) => c.field != field, s) == Filtered(OtherThan(field), s)
  {
  }

  // Every nested group holds some condition, in itself or below.
  ghost predicate NestedHold(g: FilterGroup) {
    forall h | h in Groups(g) :: AllConditions(h) != [] && NestedHold(h)
  }

  lemma NonEmptyHolds(g: FilterGroup)
    requires IsNonEmpty(g) && NestedHold(g)
    ensures AllConditions(g) != []
  {
    if Conditions(g) == [] {
      assert AllConditionsOf(Groups(g))[0] == AllConditions(Groups(g)[0]);
    }
  }

  lemma {:induction false} SurvivingGroupsHold(g: FilterGroup, field: string)
    ensures NestedHold(GroupWithout(g, field))
  {
    var removed := GroupWithout(g, field);
    FilteredOnly(IsNonEmpty, GroupsWithout(Groups(g), field));
    forall h | h in Groups(removed)
      ensures AllConditions(h) != [] && NestedHold(h)
    {
      var i :| 0 <= i < |Groups(g)| && h == GroupWithout(Groups(g)[i], field);
      assert Groups(g)[i] in Groups(g);
      SurvivingGroupsHold(Groups(g)[i], field);
      NonEmptyHolds(h);
    }
  }

  ghost predicate Mentions(view: View, field: string) {
    || (view.columns.Some? && exists c :: c in view.columns.value && c.field == field)
    || (view.sorts.Some? && exists s :: s in view.sorts.value && s.field == field)
    || (view.filters.Some? && exists c :: c in AllConditions(view.filters.value) && c.field == field)
  }

  // A removed field is mentioned nowhere in the view.
  lemma RemovedFieldIsGone(view: View, field: string)
    ensures !Mentions(ViewWithout(view, field), field)
  {
    if view.columns.Some? {
      FilteredOnly((c: Column) => c.field != field, view.columns.value);
    }
    if view.sorts.Some? {
      FilteredOnly((s: Sort) => s.field != field, view.sorts.value);
    }
    if view.filters.Some? {
      RemovalKeepsTheOthers(view.filters.value, field);
    }
  }

  // ---- Moving ------------------------------------------------------------------------------

  // The meaning of a filter tree over what its conditions mean; without "or" all parts must hold.
  ghost predicate Holds(g: FilterGroup, means: (string, string, Option<string>) -> bool) {
    if g.logic == Some(Or) then
      || (exists c :: c in Conditions(g) && means(c.field, c.operator, c.value))
      || (exists h :: h in Groups(g) && Holds(h, means))
    else
      && (forall c | c in Conditions(g) :: means(c.field, c.operator, c.value))
      && (forall h | h in Groups(g) :: Holds(h, means))
  }

  ghost function UnderRenaming(means: (string, string, Option<string>) -> bool, from: string, to: string):
      (string, string, Option<string>) -> bool
  {
    (field, operator, value) => means(Renamed(field, from, to), operator, value)
  }

  // A moved filter means over the new names what it meant over the old ones, for any meaning of conditions.
  lemma {:induction false} MoveKeepsMeaning(g: FilterGroup, from: string, to: string,
                                            means: (string, string, Option<string>) -> bool)
    ensures Holds(GroupRenamed(g, from, to), means) <==> Holds(g, UnderRenaming(means, from, to))
  {
    var moved := GroupRenamed(g, from, to);
    var under := UnderRenaming(means, from, to);
    forall i | 0 <= i < |Groups(g)|
      ensures Groups(moved)[i] in Groups(moved) && Groups(g)[i] in Groups(g)
      ensures Holds(Groups(moved)[i], means) <==> Holds(Groups(g)[i], under)
    {
      MoveKeepsMeaning(Groups(g)[i], from, to, means);
    }
    forall i | 0 <= i < |Conditions(g)|
      ensures Conditions(moved)[i] in Conditions(moved) && Conditions(g)[i] in Conditions(g)
      ensures var c, d := Conditions(g)[i], Conditions(moved)[i];
        means(d.field, d.operator, d.value) <==> under(c.field, c.operator, c.value)
    {
    }
    assert |Groups(moved)| == |Groups(g)| && |Conditions(moved)| == |Conditions(g)|;
  }

  function MovedBack(g: FilterGroup, from: string, to: string): FilterGroup {
    GroupRenamed(GroupRenamed(g, from, to), to, from)
  }

  ghost predicate GroupMentions(g: FilterGroup, field: string) {
    || (exists c :: c in Conditions(g) && c.field == field)
    || (exists h :: h in Groups(g) && GroupMentions(h, field))
  }

  lemma {:induction false} InConcat<A>(ss: seq<seq<A>>, x: A)
    ensures x in Concat(ss) <==> exists i :: 0 <= i < |ss| && x in ss[i]
  {
    if ss != [] {
      InConcat(ss[1..], x);
      if i :| 0 <= i < |ss| && x in ss[i] {
        assert i == 0 || x in ss[1..][i - 1];
      }
      if i :| 0 <= i < |ss[1..]| && x in ss[1..][i] {
        assert x in ss[i + 1];
      }
    }
  }

  lemma {:induction false} MentionedAtSomeDepth(g: FilterGroup, field: string)
    ensures GroupMentions(g, field) <==> exists c :: c in AllConditions(g) && c.field == field
  {
    forall h | h in Groups(g)
      ensures GroupMentions(h, field) <==> exists c :: c in AllConditions(h) && c.field == field
    {
      MentionedAtSomeDepth(h, field);
    }
    forall c: Condition
      ensures c in Concat(AllConditionsOf(Groups(g))) <==> exists h :: h in Groups(g) && c in AllConditions(h)
    {
      InConcat(AllConditionsOf(Groups(g)), c);
      if h :| h in Groups(g) && c in AllConditions(h) {
        var i :| 0 <= i < |Groups(g)| && Groups(g)[i] == h;
        assert c in AllConditionsOf(Groups(g))[i];
      }
    }
  }

  lemma ConditionsMovedBack(conditions: seq<Condition>, from: string, to: string)
    requires from != to
    ensures ConditionsRenamed(ConditionsRenamed(conditions, from, to), to, from) == conditions
       <==> forall c | c in conditions :: c.field != to
  {
  }

  lemma {:induction false} GroupMovedBack(g: FilterGroup, from: string, to: string)
    requires from != to
    ensures MovedBack(g, from, to) == g <==> !GroupMentions(g, to)
  {
    var back := MovedBack(g, from, to);
    if g.conditions.Some? {
      ConditionsMovedBack(g.conditions.value, from, to);
    }
    forall i | 0 <= i < |Groups(g)|
      ensures Groups(back)[i] == MovedBack(Groups(g)[i], from, to) && Groups(g)[i] in Groups(g)
      ensures Groups(back)[i] == Groups(g)[i] <==> !GroupMentions(Groups(g)[i], to)
    {
      GroupMovedBack(Groups(g)[i], from, to);
    }
    assert |Groups(back)| == |Groups(g)|;
    if Groups(back) == Groups(g) {
      assert forall i | 0 <= i < |Groups(g)| :: Groups(back)[i] == Groups(g)[i];
    }
    assert back == g <==> back.conditions == g.conditions && Groups(back) == Groups(g);
  }

  lemma ColumnsMovedBack(columns: seq<Column>, from: string, to: string)
    requires from != to
    ensures ColumnsRenamed(ColumnsRenamed(columns, from, to), to, from) == columns
       <==> forall c | c in columns :: c.field != to
  {
  }

  lemma SortsMovedBack(sorts: seq<Sort>, from: string, to: string)
    requires from != to
    ensures SortsRenamed(SortsRenamed(sorts, from, to), to, from) == sorts
       <==> forall c | c in sorts :: c.field != to
  {
  }

  // Moving a field and moving it back restores a view exactly when the view did not mention the target before.
  lemma MovingBackRestores(view: View, from: string, to: string)
    requires from != to
    ensures ViewRenamed(ViewRenamed(view, from, to), to, from) == view <==> !Mentions(view, to)
  {
    if view.columns.Some? {
      ColumnsMovedBack(view.columns.value, from, to);
    }
    if view.sorts.Some? {
      SortsMovedBack(view.sorts.value, from, to);
    }
    if view.filters.Some? {
      GroupMovedBack(view.filters.value, from, to);
      MentionedAtSomeDepth(view.filters.value, to);
    }
  }
}
