/** How saved views follow schema patches of top-level fields: moves rename, removes delete references at every
  * depth, replaces drop filters when the type changes. The rename map finds each field's name before the patches. */
module ViewsMigration {
  import opened Wrappers

  datatype Column = Column(field: string, width: Option<int>, pinned: Option<string>)

  datatype Condition = Condition(field: string, operator: string, value: Option<string>)

  datatype Logic = And | Or

  datatype Subgroups = Absent | Present(list: seq<FilterGroup>)

  datatype FilterGroup = FilterGroup(logic: Option<Logic>, conditions: Option<seq<Condition>>, groups: Subgroups)

  datatype Sort = Sort(field: string, descending: bool)

  datatype View = View(
    id: string, name: string, columns: Option<seq<Column>>, filters: Option<FilterGroup>, sorts: Option<seq<Sort>>)

  datatype PropertySchema = RefSchema | TypedSchema(typeName: string)

  datatype TableSchema = ObjectSchema(properties: map<string, PropertySchema>) | NoObject

  // Patches name top-level fields.
  datatype Patch =
    | Move(from: string, to: string)
    | Remove(path: string)
    | Replace(path: string, schema: PropertySchema)
    | Add(path: string)

  datatype MigrationState = MigrationState(views: seq<View>, fieldRenames: map<string, string>)

  // ---- Sequences ---------------------------------------------------------------------------

  function Mapped<A, B>(f: A -> B, s: seq<A>): (r: seq<B>)
    ensures |r| == |s| && forall i | 0 <= i < |s| :: r[i] == f(s[i])
  {
    seq(|s|, i requires 0 <= i < |s| => f(s[i]))
  }

  function Filtered<A>(p: A -> bool, s: seq<A>): seq<A> {
    if s == [] then [] else (if p(s[0]) then [s[0]] else []) + Filtered(p, s[1..])
  }

  function Concat<A>(ss: seq<seq<A>>): seq<A> {
    if ss == [] then [] else ss[0] + Concat(ss[1..])
  }

  // ---- Renaming and removing a field -------------------------------------------------------

  function FieldPath(name: string): string {
    "data." + name
  }

  function Renamed(field: string, from: string, to: string): string {
    if field == from then to else field
  }

  function ColumnsRenamed(columns: seq<Column>, from: string, to: string): seq<Column> {
    Mapped((c: Column) => c.(field := Renamed(c.field, from, to)), columns)
  }

  function SortsRenamed(sorts: seq<Sort>, from: string, to: string): seq<Sort> {
    Mapped((s: Sort) => s.(field := Renamed(s.field, from, to)), sorts)
  }

  function ConditionsRenamed(conditions: seq<Condition>, from: string, to: string): seq<Condition> {
    Mapped((c: Condition) => c.(field := Renamed(c.field, from, to)), conditions)
  }

  function Conditions(g: FilterGroup): seq<Condition> {
    if g.conditions.Some? then g.conditions.value else []
  }

  function Groups(g: FilterGroup): (groups: seq<FilterGroup>)
    ensures forall h | h in groups :: h < g
  {
    if g.groups.Present? then g.groups.list else []
  }

  function GroupRenamed(g: FilterGroup, from: string, to: string): FilterGroup {
    FilterGroup(
      g.logic,
      if g.conditions.Some? then Some(ConditionsRenamed(g.conditions.value, from, to)) else None,
      if g.groups.Present? then
        Present(seq(|g.groups.list|, i requires 0 <= i < |g.groups.list| => GroupRenamed(g.groups.list[i], from, to)))
      else
        Absent)
  }

  predicate IsNonEmpty(g: FilterGroup) {
    Conditions(g) != [] || Groups(g) != []
  }

  function GroupsWithout(groups: seq<FilterGroup>, field: string): seq<FilterGroup> {
    seq(|groups|, i requires 0 <= i < |groups| => GroupWithout(groups[i], field))
  }

  function GroupWithout(g: FilterGroup, field: string): FilterGroup {
    FilterGroup(
      g.logic,
      if g.conditions.Some? then Some(Filtered((c: Condition) => c.field != field, g.conditions.value)) else None,
      if g.groups.Present? then Present(Filtered(IsNonEmpty, GroupsWithout(g.groups.list, field))) else Absent)
  }

  function ViewRenamed(view: View, from: string, to: string): View {
    view.(columns := if view.columns.Some? then Some(ColumnsRenamed(view.columns.value, from, to)) else None,
          sorts := if view.sorts.Some? then Some(SortsRenamed(view.sorts.value, from, to)) else None,
          filters := if view.filters.Some? then Some(GroupRenamed(view.filters.value, from, to)) else None)
  }

  function WithoutFilters(view: View, field: string): View {
    view.(filters := if view.filters.Some? then Some(GroupWithout(view.filters.value, field)) else None)
  }

  function ViewWithout(view: View, field: string): View {
    WithoutFilters(view, field).(
      columns := if view.columns.Some?
                 then Some(Filtered((c: Column) => c.field != field, view.columns.value)) else None,
      sorts := if view.sorts.Some? then Some(Filtered((s: Sort) => s.field != field, view.sorts.value)) else None)
  }

  // ---- Patches -----------------------------------------------------------------------------

  function TypeOf(schema: PropertySchema): Option<string> {
    if schema.TypedSchema? then Some(schema.typeName) else None
  }

  function FieldType(schema: TableSchema, name: string): Option<string> {
    if schema.ObjectSchema? && name in schema.properties then TypeOf(schema.properties[name]) else None
  }

  // The name a field had in the previous schema.
  function Resolved(renames: map<string, string>, name: string): string {
    if name in renames then renames[name] else name
  }

  predicate DropsFilters(renames: map<string, string>, name: string, schema: PropertySchema, previous: TableSchema) {
    var before, after := FieldType(previous, Resolved(renames, name)), TypeOf(schema);
    before.Some? && after.Some? && before != after
  }

  function Moved(state: MigrationState, from: string, to: string): MigrationState {
    MigrationState(
      Mapped((v: View) => ViewRenamed(v, FieldPath(from), FieldPath(to)), state.views),
      (state.fieldRenames - {from})[to := Resolved(state.fieldRenames, from)])
  }

  function Applied(state: MigrationState, patch: Patch, previous: TableSchema): MigrationState {
    match patch
    case Move(from, to) => Moved(state, from, to)
    case Remove(path) => state.(views := Mapped((v: View) => ViewWithout(v, FieldPath(path)), state.views))
    case Replace(path, schema) =>
      if DropsFilters(state.fieldRenames, path, schema, previous) then
        state.(views := Mapped((v: View) => WithoutFilters(v, FieldPath(path)), state.views))
      else
        state
    case Add(_) => state
  }

  function AppliedAll(state: MigrationState, patches: seq<Patch>, previous: TableSchema): MigrationState {
    if patches == [] then state
    else Applied(AppliedAll(state, patches[..|patches| - 1], previous), patches[|patches| - 1], previous)
  }
}
