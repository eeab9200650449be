/** What all patches together leave of a view, said in one pass: each reference to a field follows that field to its
  * current name, or is gone with it. The migration that applies one patch after the other gives the same views. */
module MigratedViews {
  import opened Wrappers
  import opened ViewsMigration
  import opened ViewsProperties

  // ---- The fate of one field ---------------------------------------------------------------

  // Where a field of a view is after the patches: under its last name, or nowhere once it was removed.
  function FieldFate(patches: seq<Patch>, field: string): Option<string>
    decreases |patches|
  {
    if patches == [] then Some(field)
    else
      var before := FieldFate(patches[..|patches| - 1], field);
      match patches[|patches| - 1]
      case Move(from, to) => if before == Some("data." + from) then Some("data." + to) else before
      case Remove(path) => if before == Some("data." + path) then None else before
      case _ => before
  }

  // A replace changes the type that a field had in the previous schema; both types are known.
  predicate ChangesType(previous: TableSchema, name: string, schema: PropertySchema) {
    && previous.ObjectSchema? && name in previous.properties && previous.properties[name].TypedSchema?
    && schema.TypedSchema? && previous.properties[name].typeName != schema.typeName
  }

  // The same for the field of a condition, which is also dropped when the type of the field changes.
  ghost function ConditionFate(patches: seq<Patch>, previous: TableSchema, field: string): Option<string>
    decreases |patches|
  {
    if patches == [] then Some(field)
    else
      var first := patches[..|patches| - 1];
      var before := ConditionFate(first, previous, field);
      match patches[|patches| - 1]
      case Move(from, to) => if before == Some("data." + from) then Some("data." + to) else before
      case Remove(path) => if before == Some("data." + path) then None else before
      case Replace(path, schema) =>
        if before == Some("data." + path) && ChangesType(previous, Origin(first, path), schema) then None else before
      case Add(_) => before
  }

  // Some patch removes a field or changes the type of one; only then are empty groups dropped.
  ghost predicate Drops(patches: seq<Patch>, previous: TableSchema)
    decreases |patches|
  {
    patches != [] &&
    var first := patches[..|patches| - 1];
    (Drops(first, previous) ||
     match patches[|patches| - 1]
     case Remove(_) => true
     case Replace(path, schema) => ChangesType(previous, Origin(first, path), schema)
     case _ => false)
  }

  // ---- One pass over a view ----------------------------------------------------------------

  function ColumnsAfter(columns: seq<Column>, patches: seq<Patch>): seq<Column> {
    if columns == [] then []
    else
      var fate := FieldFate(patches, columns[0].field);
      (if fate.Some? then [columns[0].(field := fate.value)] else []) + ColumnsAfter(columns[1..], patches)
  }

  function SortsAfter(sorts: seq<Sort>, patches: seq<Patch>): seq<Sort> {
    if sorts == [] then []
    else
      var fate := FieldFate(patches, sorts[0].field);
      (if fate.Some? then [sorts[0].(field := fate.value)] else []) + SortsAfter(sorts[1..], patches)
  }

  ghost function ConditionsAfter(conditions: seq<Condition>, patches: seq<Patch>,
                                 previous: TableSchema): seq<Condition> {
    if conditions == [] then []
    else
      var fate := ConditionFate(patches, previous, conditions[0].field);
      (if fate.Some? then [conditions[0].(field := fate.value)] else [])
      + ConditionsAfter(conditions[1..], patches, previous)
  }

  predicate HoldsAnything(g: FilterGroup) {
    (g.conditions.Some? && g.conditions.value != []) || (g.groups.Present? && g.groups.list != [])
  }

  function WithoutEmpty(groups: seq<FilterGroup>): seq<FilterGroup> {
    if groups == [] then []
    else (if HoldsAnything(groups[0]) then [groups[0]] else []) + WithoutEmpty(groups[1..])
  }

  ghost function GroupAfter(g: FilterGroup, patches: seq<Patch>, previous: TableSchema): FilterGroup {
    FilterGroup(
      g.logic,
      if g.conditions.Some? then Some(ConditionsAfter(g.conditions.value, patches, previous)) else None,
      if g.groups.Absent? then Absent
      else
        var groups := GroupsAfter(g.groups.list, patches, previous);
        Present(if Drops(patches, previous) then WithoutEmpty(groups) else groups))
  }

  ghost function GroupsAfter(groups: seq<FilterGroup>, patches: seq<Patch>,
                             previous: TableSchema): (r: seq<FilterGroup>)
    ensures |r| == |groups|
  {
    seq(|groups|, i requires 0 <= i < |groups| => GroupAfter(groups[i], patches, previous))
  }

  ghost function ViewAfter(view: View, patches: seq<Patch>, previous: TableSchema): View {
    View(view.id, view.name,
         if view.columns.Some? then Some(ColumnsAfter(view.columns.value, patches)) else None,
         if view.filters.Some? then Some(GroupAfter(view.filters.value, patches, previous)) else None,
         if view.sorts.Some? then Some(SortsAfter(view.sorts.value, patches)) else None)
  }

  // ---- One more patch: columns and sorts ---------------------------------------------------

  lemma FirstPatches(patches: seq<Patch>, last: Patch)
    ensures (patches + [last])[..|patches + [last]| - 1] == patches
       && (patches + [last])[|patches + [last]| - 1] == last
  {
  }

  lemma {:induction false} NoPatches(columns: seq<Column>, sorts: seq<Sort>)
    ensures ColumnsAfter(columns, []) == columns && SortsAfter(sorts, []) == sorts
    decreases |columns| + |sorts|
  {
    if columns != [] {
      NoPatches(columns[1..], []);
    }
    if sorts != [] {
      NoPatches([], sorts[1..]);
    }
  }

  lemma {:induction false} ColumnsMoved(columns: seq<Column>, patches: seq<Patch>, from: string, to: string)
    ensures ColumnsAfter(columns, patches + [Move(from, to)])
         == ColumnsRenamed(ColumnsAfter(columns, patches), FieldPath(from), FieldPath(to))
  {
    FirstPatches(patches, Move(from, to));
    if columns != [] {
      ColumnsMoved(columns[1..], patches, from, to);
      assert ColumnsAfter(columns, patches + [Move(from, to)])
          == ColumnsRenamed(ColumnsAfter(columns, patches), FieldPath(from), FieldPath(to));
    }
  }

  lemma {:induction false} SortsMoved(sorts: seq<Sort>, patches: seq<Patch>, from: string, to: string)
    ensures SortsAfter(sorts, patches + [Move(from, to)])
         == SortsRenamed(SortsAfter(sorts, patches), FieldPath(from), FieldPath(to))
  {
    FirstPatches(patches, Move(from, to));
    if sorts != [] {
      SortsMoved(sorts[1..], patches, from, to);
      assert SortsAfter(sorts, patches + [Move(from, to)])
          == SortsRenamed(SortsAfter(sorts, patches), FieldPath(from), FieldPath(to));
    }
  }

  lemma {:induction false} ColumnsRemoved(columns: seq<Column>, patches: seq<Patch>, path: string)
    ensures ColumnsAfter(columns, patches + [Remove(path)])
         == Filtered((c: Column) => c.field != FieldPath(path), ColumnsAfter(columns, patches))
  {
    FirstPatches(patches, Remove(path));
    if columns != [] {
      ColumnsRemoved(columns[1..], patches, path);
      var fate := FieldFate(patches, columns[0].field);
      var keep := (c: Column) => c.field != FieldPath(path);
      FilteredSum(keep, if fate.Some? then [columns[0].(field := fate.value)] else [],
                  ColumnsAfter(columns[1..], patches));
    }
  }

  lemma {:induction false} SortsRemoved(sorts: seq<Sort>, patches: seq<Patch>, path: string)
    ensures SortsAfter(sorts, patches + [Remove(path)])
         == Filtered((s: Sort) => s.field != FieldPath(path), SortsAfter(sorts, patches))
  {
    FirstPatches(patches, Remove(path));
    if sorts != [] {
      SortsRemoved(sorts[1..], patches, path);
      var fate := FieldFate(patches, sorts[0].field);
      var keep := (s: Sort) => s.field != FieldPath(path);
      FilteredSum(keep, if fate.Some? then [sorts[0].(field := fate.value)] else [], SortsAfter(sorts[1..], patches));
    }
  }

  lemma {:induction false} ColumnsStay(columns: seq<Column>, sorts: seq<Sort>, patches: seq<Patch>, last: Patch)
    requires last.Replace? || last.Add?
    ensures ColumnsAfter(columns, patches + [last]) == ColumnsAfter(columns, patches)
    ensures SortsAfter(sorts, patches + [last]) == SortsAfter(sorts, patches)
    decreases |columns| + |sorts|
  {
    FirstPatches(patches, last);
    if columns != [] {
      ColumnsStay(columns[1..], [], patches, last);
    }
    if sorts != [] {
      ColumnsStay([], sorts[1..], patches, last);
    }
  }

  // ---- One more patch: conditions ----------------------------------------------------------

  // The patches that drop the conditions on a field.
  ghost predicate DropsField(patches: seq<Patch>, last: Patch, previous: TableSchema, path: string) {
    match last
    case Remove(name) => name == path
    case Replace(name, schema) => name == path && ChangesType(previous, Origin(patches, path), schema)
    case _ => false
  }

  lemma {:induction false} NoPatchesOnConditions(conditions: seq<Condition>, previous: TableSchema)
    ensures ConditionsAfter(conditions, [], previous) == conditions
  {
    if conditions != [] {
      NoPatchesOnConditions(conditions[1..], previous);
    }
  }

  lemma {:induction false} ConditionsMoved(conditions: seq<Condition>, patches: seq<Patch>, previous: TableSchema,
                                           from: string, to: string)
    ensures ConditionsAfter(conditions, patches + [Move(from, to)], previous)
         == ConditionsRenamed(ConditionsAfter(conditions, patches, previous), FieldPath(from), FieldPath(to))
  {
    FirstPatches(patches, Move(from, to));
    if conditions != [] {
      ConditionsMoved(conditions[1..], patches, previous, from, to);
      assert ConditionsAfter(conditions, patches + [Move(from, to)], previous)
          == ConditionsRenamed(ConditionsAfter(conditions, patches, previous), FieldPath(from), FieldPath(to));
    }
  }

  lemma {:induction false} ConditionsDropped(conditions: seq<Condition>, patches: seq<Patch>, last: Patch,
                                             previous: TableSchema, path: string)
    requires DropsField(patches, last, previous, path)
    ensures ConditionsAfter(conditions, patches + [last], previous)
         == Filtered((c: Condition) => c.field != FieldPath(path), ConditionsAfter(conditions, patches, previous))
  {
    FirstPatches(patches, last);
    if conditions != [] {
      ConditionsDropped(conditions[1..], patches, last, previous, path);
      var fate := ConditionFate(patches, previous, conditions[0].field);
      var keep := (c: Condition) => c.field != FieldPath(path);
      FilteredSum(keep, if fate.Some? then [conditions[0].(field := fate.value)] else [],
                  ConditionsAfter(conditions[1..], patches, previous));
    }
  }

  ghost predicate ChangesNothing(patches: seq<Patch>, last: Patch, previous: TableSchema) {
    match last
    case Replace(path, schema) => !ChangesType(previous, Origin(patches, path), schema)
    case Add(_) => true
    case _ => false
  }

  lemma {:induction false} ConditionsStay(conditions: seq<Condition>, patches: seq<Patch>, last: Patch,
                                          previous: TableSchema)
    requires ChangesNothing(patches, last, previous)
    ensures ConditionsAfter(conditions, patches + [last], previous) == ConditionsAfter(conditions, patches, previous)
  {
    FirstPatches(patches, last);
    if conditions != [] {
      ConditionsStay(conditions[1..], patches, last, previous);
    }
  }

  // ---- One more patch: groups --------------------------------------------------------------

  lemma DropsAfter(patches: seq<Patch>, last: Patch, previous: TableSchema)
    ensures (last.Move? || ChangesNothing(patches, last, previous)) ==>
      (Drops(patches + [last], previous) <==> Drops(patches, previous))
    ensures (exists path :: DropsField(patches, last, previous, path)) ==> Drops(patches + [last], previous)
  {
    FirstPatches(patches, last);
  }

  function GroupsRenamed(groups: seq<FilterGroup>, from: string, to: string): (r: seq<FilterGroup>)
    ensures |r| == |groups|
  {
    seq(|groups|, i requires 0 <= i < |groups| => GroupRenamed(groups[i], from, to))
  }

  lemma RenamedParts(g: FilterGroup, from: string, to: string)
    ensures var r := GroupRenamed(g, from, to);
      && r.logic == g.logic
      && r.conditions == (if g.conditions.Some? then Some(ConditionsRenamed(g.conditions.value, from, to)) else None)
      && r.groups == (if g.groups.Present? then Present(GroupsRenamed(g.groups.list, from, to)) else Absent)
      && (HoldsAnything(r) <==> HoldsAnything(g))
  {
    if g.groups.Present? {
      assert GroupRenamed(g, from, to).groups.list == GroupsRenamed(g.groups.list, from, to);
    }
  }

  lemma {:induction false} WithoutEmptyRenamed(groups: seq<FilterGroup>, from: string, to: string)
    ensures WithoutEmpty(GroupsRenamed(groups, from, to)) == GroupsRenamed(WithoutEmpty(groups), from, to)
  {
    if groups != [] {
      RenamedParts(groups[0], from, to);
      WithoutEmptyRenamed(groups[1..], from, to);
      assert GroupsRenamed(groups, from, to)[1..] == GroupsRenamed(groups[1..], from, to);
      var rest := WithoutEmpty(groups[1..]);
      assert GroupsRenamed([groups[0]] + rest, from, to)
           == [GroupRenamed(groups[0], from, to)] + GroupsRenamed(rest, from, to);
      assert [] + rest == rest;
      hide GroupRenamed, HoldsAnything;
    }
  }

  lemma {:induction false} GroupMoved(g: FilterGroup, patches: seq<Patch>, previous: TableSchema, from: string,
                                      to: string)
    ensures GroupAfter(g, patches + [Move(from, to)], previous)
         == GroupRenamed(GroupAfter(g, patches, previous), FieldPath(from), FieldPath(to))
  {
    var all := patches + [Move(from, to)];
    DropsAfter(patches, Move(from, to), previous);
    RenamedParts(GroupAfter(g, patches, previous), FieldPath(from), FieldPath(to));
    if g.conditions.Some? {
      ConditionsMoved(g.conditions.value, patches, previous, from, to);
    }
    if g.groups.Present? {
      var list := g.groups.list;
      forall i | 0 <= i < |list|
        ensures GroupAfter(list[i], all, previous)
             == GroupRenamed(GroupAfter(list[i], patches, previous), FieldPath(from), FieldPath(to))
      {
        GroupMoved(list[i], patches, previous, from, to);
      }
      assert GroupsAfter(list, all, previous)
          == GroupsRenamed(GroupsAfter(list, patches, previous), FieldPath(from), FieldPath(to));
      WithoutEmptyRenamed(GroupsAfter(list, patches, previous), FieldPath(from), FieldPath(to));
    }
  }

  lemma {:induction false} WithoutEmptyIsFiltered(groups: seq<FilterGroup>)
    ensures WithoutEmpty(groups) == Filtered(IsNonEmpty, groups)
  {
    if groups != [] {
      WithoutEmptyIsFiltered(groups[1..]);
    }
  }

  lemma EmptyStaysEmpty(g: FilterGroup, field: string)
    requires !HoldsAnything(g)
    ensures !HoldsAnything(GroupWithout(g, field))
  {
  }

  // Empty groups may be dropped before a removal, as they are after it.
  lemma {:induction false} WithoutEmptyTwice(groups: seq<FilterGroup>, field: string)
    ensures WithoutEmpty(GroupsWithout(WithoutEmpty(groups), field)) == WithoutEmpty(GroupsWithout(groups, field))
  {
    if groups != [] {
      WithoutEmptyTwice(groups[1..], field);
      var rest := WithoutEmpty(groups[1..]);
      assert GroupsWithout(groups, field)[1..] == GroupsWithout(groups[1..], field);
      if HoldsAnything(groups[0]) {
        var kept := [groups[0]] + rest;
        assert WithoutEmpty(groups) == kept;
        assert GroupsWithout(kept, field)[1..] == GroupsWithout(rest, field);
        assert GroupsWithout(kept, field)[0] == GroupsWithout(groups, field)[0];
      } else {
        EmptyStaysEmpty(groups[0], field);
        assert WithoutEmpty(groups) == rest;
      }
      hide GroupWithout, HoldsAnything;
    }
  }

  lemma {:induction false} GroupDropped(g: FilterGroup, patches: seq<Patch>, last: Patch, previous: TableSchema,
                                        path: string)
    requires DropsField(patches, last, previous, path)
    ensures GroupAfter(g, patches + [last], previous) == GroupWithout(GroupAfter(g, patches, previous), FieldPath(path))
  {
    var all := patches + [last];
    DropsAfter(patches, last, previous);
    if g.conditions.Some? {
      ConditionsDropped(g.conditions.value, patches, last, previous, path);
    }
    if g.groups.Present? {
      var list := g.groups.list;
      forall i | 0 <= i < |list|
        ensures GroupAfter(list[i], all, previous)
             == GroupWithout(GroupAfter(list[i], patches, previous), FieldPath(path))
      {
        GroupDropped(list[i], patches, last, previous, path);
      }
      var before := GroupsAfter(list, patches, previous);
      assert GroupsAfter(list, all, previous) == GroupsWithout(before, FieldPath(path));
      WithoutEmptyTwice(before, FieldPath(path));
      WithoutEmptyIsFiltered(GroupsWithout(before, FieldPath(path)));
      WithoutEmptyIsFiltered(GroupsWithout(WithoutEmpty(before), FieldPath(path)));
    }
  }

  lemma {:induction false} GroupStays(g: FilterGroup, patches: seq<Patch>, last: Patch, previous: TableSchema)
    requires ChangesNothing(patches, last, previous)
    ensures GroupAfter(g, patches + [last], previous) == GroupAfter(g, patches, previous)
  {
    DropsAfter(patches, last, previous);
    if g.conditions.Some? {
      ConditionsStay(g.conditions.value, patches, last, previous);
    }
    if g.groups.Present? {
      forall i | 0 <= i < |g.groups.list|
        ensures GroupAfter(g.groups.list[i], patches + [last], previous)
             == GroupAfter(g.groups.list[i], patches, previous)
      {
        GroupStays(g.groups.list[i], patches, last, previous);
      }
      assert GroupsAfter(g.groups.list, patches + [last], previous) == GroupsAfter(g.groups.list, patches, previous);
    }
  }

  lemma {:induction false} NoPatchesOnGroup(g: FilterGroup, previous: TableSchema)
    ensures GroupAfter(g, [], previous) == g
  {
    if g.conditions.Some? {
      NoPatchesOnConditions(g.conditions.value, previous);
    }
    if g.groups.Present? {
      forall i | 0 <= i < |g.groups.list|
        ensures GroupAfter(g.groups.list[i], [], previous) == g.groups.list[i]
      {
        NoPatchesOnGroup(g.groups.list[i], previous);
      }
      assert GroupsAfter(g.groups.list, [], previous) == g.groups.list;
    }
  }

  // ---- All patches -------------------------------------------------------------------------

  lemma NoPatchesOnView(view: View, previous: TableSchema)
    ensures ViewAfter(view, [], previous) == view
  {
    NoPatches(if view.columns.Some? then view.columns.value else [], if view.sorts.Some? then view.sorts.value else []);
    if view.filters.Some? {
      NoPatchesOnGroup(view.filters.value, previous);
    }
  }

  lemma MovedView(view: View, patches: seq<Patch>, previous: TableSchema, from: string, to: string)
    ensures ViewAfter(view, patches + [Move(from, to)], previous)
         == ViewRenamed(ViewAfter(view, patches, previous), FieldPath(from), FieldPath(to))
  {
    if view.columns.Some? {
      ColumnsMoved(view.columns.value, patches, from, to);
    }
    if view.sorts.Some? {
      SortsMoved(view.sorts.value, patches, from, to);
    }
    if view.filters.Some? {
      GroupMoved(view.filters.value, patches, previous, from, to);
    }
  }

  lemma RemovedView(view: View, patches: seq<Patch>, previous: TableSchema, path: string)
    ensures ViewAfter(view, patches + [Remove(path)], previous)
         == ViewWithout(ViewAfter(view, patches, previous), FieldPath(path))
  {
    if view.columns.Some? {
      ColumnsRemoved(view.columns.value, patches, path);
    }
    if view.sorts.Some? {
      SortsRemoved(view.sorts.value, patches, path);
    }
    if view.filters.Some? {
      GroupDropped(view.filters.value, patches, Remove(path), previous, path);
    }
  }

  lemma ReplacedView(view: View, patches: seq<Patch>, previous: TableSchema, last: Patch)
    requires last.Replace? || last.Add?
    ensures ViewAfter(view, patches + [last], previous)
         == (if last.Replace? && ChangesType(previous, Origin(patches, last.path), last.schema)
             then WithoutFilters(ViewAfter(view, patches, previous), FieldPath(last.path))
             else ViewAfter(view, patches, previous))
  {
    ColumnsStay(if view.columns.Some? then view.columns.value else [],
                if view.sorts.Some? then view.sorts.value else [],
                patches, last);
    if view.filters.Some? {
      if last.Replace? && ChangesType(previous, Origin(patches, last.path), last.schema) {
        GroupDropped(view.filters.value, patches, last, previous, last.path);
      } else {
        GroupStays(view.filters.value, patches, last, previous);
      }
    }
  }

  lemma OneMorePatch(state: MigrationState, view: View, patches: seq<Patch>, last: Patch, previous: TableSchema, i: nat)
    requires i < |state.views| && state.views[i] == ViewAfter(view, patches, previous)
    requires forall name :: Resolved(state.fieldRenames, name) == Origin(patches, name)
    ensures |Applied(state, last, previous).views| == |state.views|
    ensures Applied(state, last, previous).views[i] == ViewAfter(view, patches + [last], previous)
  {
    match last {
      case Move(from, to) =>
        MovedView(view, patches, previous, from, to);
      case Remove(path) =>
        RemovedView(view, patches, previous, path);
      case Replace(path, schema) =>
        ReplacedView(view, patches, previous, last);
        assert DropsFilters(state.fieldRenames, path, schema, previous)
          <==> ChangesType(previous, Origin(patches, path), schema);
      case Add(_) =>
        ReplacedView(view, patches, previous, last);
    }
    hide ViewAfter, ViewRenamed, ViewWithout, WithoutFilters, Resolved;
  }

  // Patch by patch the migration leaves what one pass leaves.
  lemma {:induction false} MigrationIsOnePass(views: seq<View>, patches: seq<Patch>, previous: TableSchema)
    ensures var migrated := AppliedAll(MigrationState(views, map[]), patches, previous).views;
      && |migrated| == |views|
      && forall i | 0 <= i < |views| :: migrated[i] == ViewAfter(views[i], patches, previous)
  {
    if patches == [] {
      forall i | 0 <= i < |views| {
        NoPatchesOnView(views[i], previous);
      }
    } else {
      var first, last := patches[..|patches| - 1], patches[|patches| - 1];
      assert patches == first + [last];
      MigrationIsOnePass(views, first, previous);
      var state := AppliedAll(MigrationState(views, map[]), first, previous);
      assert AppliedAll(MigrationState(views, map[]), patches, previous) == Applied(state, last, previous);
      forall name {
        NamesAreTraced(views, first, previous, name);
      }
      hide Applied, AppliedAll, ViewAfter, Resolved, Origin;
      forall i | 0 <= i < |views|
        ensures |Applied(state, last, previous).views| == |views|
        ensures Applied(state, last, previous).views[i] == ViewAfter(views[i], patches, previous)
      {
        OneMorePatch(state, views[i], first, last, previous, i);
      }
      if views == [] {
        SameNumber(state, last, previous);
      }
    }
  }

  lemma SameNumber(state: MigrationState, last: Patch, previous: TableSchema)
    ensures |Applied(state, last, previous).views| == |state.views|
  {
  }

  // ---- The service -------------------------------------------------------------------------

  method MigrateViews(views: seq<View>, patches: seq<Patch>, previous: TableSchema) returns (migrated: seq<View>)
    ensures |migrated| == |views|
    ensures forall i | 0 <= i < |views| :: migrated[i] == ViewAfter(views[i], patches, previous)
  {
    var state := MigrationState(views, map[]);
    for i := 0 to |patches|
      invariant state == AppliedAll(MigrationState(views, map[]), patches[..i], previous)
      invariant |state.views| == |views|
    {
      assert patches[..i + 1][..i] == patches[..i];
      var patch := patches[i];
      match patch {
        case Move(from, to) =>
          var original := Resolved(state.fieldRenames, from);
          var renames := state.fieldRenames - {from};
          renames := renames[to := original];
          state := MigrationState(Mapped((v: View) => ViewRenamed(v, FieldPath(from), FieldPath(to)), state.views),
                                  renames);
        case Remove(path) =>
          state := state.(views := Mapped((v: View) => ViewWithout(v, FieldPath(path)), state.views));
        case Replace(path, schema) =>
          if DropsFilters(state.fieldRenames, path, schema, previous) {
            state := state.(views := Mapped((v: View) => WithoutFilters(v, FieldPath(path)), state.views));
          }
        case Add(_) =>
      }
    }
    assert patches[..|patches|] == patches;
    MigrationIsOnePass(views, patches, previous);
    migrated := state.views;
  }

  // ---- The fate of a field of the previous schema ------------------------------------------

  lemma FateOfLive(live: map<string, Option<string>>, patch: Patch, before: Option<string>, n: string)
    requires IsLegal(live, patch)
    requires forall m: string :: before == Some("data." + m) <==> m in live && live[m] == Some(n)
    requires before.Some? ==> exists m: string :: before == Some("data." + m)
    requires forall l, m | l in live && m in live && live[l].Some? :: live[l] == live[m] ==> l == m
    ensures var after := match patch
                         case Move(from, to) => if before == Some("data." + from) then Some("data." + to) else before
                         case Remove(path) => if before == Some("data." + path) then None else before
                         case _ => before;
      && (forall m: string ::
            after == Some("data." + m) <==> m in LiveAfter(live, patch) && LiveAfter(live, patch)[m] == Some(n))
      && (after.Some? ==> exists m: string :: after == Some("data." + m))
  {
    assert forall l: string, m: string :: "data." + l == "data." + m ==> l == m by {
      forall l: string, m: string | "data." + l == "data." + m
        ensures l == m
      {
        assert ("data." + l)[5..] == l && ("data." + m)[5..] == m;
      }
    }
  }

  // Over legal patches a reference to a field of the previous schema ends at that field's current name, or nowhere if
  // the field is gone.
  lemma {:induction false} FieldsKeepTheirReferences(patches: seq<Patch>, previous: TableSchema, n: string)
    requires AllLegal(LiveIn(previous), patches) && n in LiveIn(previous)
    ensures forall m: string ::
      FieldFate(patches, "data." + n) == Some("data." + m)
      <==> m in LiveAfterAll(LiveIn(previous), patches) && LiveAfterAll(LiveIn(previous), patches)[m] == Some(n)
    ensures FieldFate(patches, "data." + n).Some? ==>
      exists m: string :: FieldFate(patches, "data." + n) == Some("data." + m)
  {
    if patches == [] {
      forall m: string | "data." + n == "data." + m
        ensures n == m
      {
        assert ("data." + n)[5..] == n && ("data." + m)[5..] == m;
      }
    } else {
      var first, last := patches[..|patches| - 1], patches[|patches| - 1];
      FieldsKeepTheirReferences(first, previous, n);
      RenamesAreTracked([], first, previous);
      FateOfLive(LiveAfterAll(LiveIn(previous), first), last, FieldFate(first, "data." + n), n);
    }
  }
}
