/** `SchemaInspector.Inspect`: the model-derived builder of a schema state.
    Every declared table becomes a `Table` whose columns are the declared
    fields with normalised types and defaults; every relation that needs a
    foreign key in its own table becomes an `FK` with an empty name. */
module SchemaInspector {
  import opened Wrappers
  import opened GoStrings
  import opened StrConv
  import opened SqlSchema
  import opened ModelSchema

  /** The error `Inspect` wraps around a failed `parseLen`
      ("parse length in %q: %w"): the offending type string and the cause. */
  datatype InspectError = ParseLengthError(typ: string, cause: NumError)

  /** What `Inspect` does: it returns Go's (State, error) pair, or it panics
      because `parseLen` did. */
  datatype InspectResult<M> = Returned(state: State<M>, err: Option<InspectError>) | Panicked

  // ---------------------------------------------------------------------------
  // Specification of Inspect, as a fold over its input in input order

  /** The column built for a field whose type parses. */
  function ColumnOf(f: Field): (c: Column)
    requires ParsesCleanly(f.createTableSQLType)
    ensures ParseLen(c.sqlType) == LenParse(c.sqlType, 0, None)
    ensures forall i :: 0 <= i < |c.sqlType| ==> !IsUpper(c.sqlType[i])
    ensures ExprToLower(c.defaultValue) == c.defaultValue
  {
    var p := ParseLen(f.createTableSQLType);
    NormalisedTypeIsFixedPoint(f.createTableSQLType);
    ExprToLowerIdempotent(f.sqlDefault);
    Column(ToLower(p.base), p.length, ExprToLower(f.sqlDefault), f.isPK, !f.notNull, f.autoIncrement, f.identity)
  }

  datatype ColumnsOutcome = Columns(columns: map<string, Column>) | ColumnsError(err: InspectError) | ColumnsPanic

  /** The inner loop over one table's fields, continuing from the map `acc`:
      each field is assigned under its name (a later field with the same name
      replaces an earlier one); the first type that does not parse ends it. */
  function BuildColumns(fields: seq<Field>, acc: map<string, Column>): ColumnsOutcome
    decreases |fields|
  {
    if fields == [] then Columns(acc)
    else
      var f := fields[0];
      var p := ParseLen(f.createTableSQLType);
      if p.SlicePanic? then ColumnsPanic
      else if p.err.Some? then ColumnsError(ParseLengthError(f.createTableSQLType, p.err.value))
      else BuildColumns(fields[1..], acc[f.name := ColumnOf(f)])
  }

  /** Relations that get no foreign key in their own table: a many-to-many
      relation lives in its join table, a has-many relation is the other
      table's belongs-to. */
  predicate Nominal(rel: Relation) {
    rel.kind == ManyToManyRelation || rel.kind == HasManyRelation
  }

  /** The names of `fields`, in order. */
  function Names(fields: seq<Field>): (names: seq<string>)
    ensures |names| == |fields|
    ensures forall k :: 0 <= k < |fields| ==> names[k] == fields[k].name
  {
    if fields == [] then [] else Names(fields[..|fields| - 1]) + [fields[|fields| - 1].name]
  }

  /** The foreign key of relation `rel` declared on table `t`. */
  function ForeignKeyOf<M>(t: TableMeta<M>, rel: Relation): FK {
    FK(C(t.schema, t.name, Names(rel.baseFields)),
       C(rel.joinTable.schema, rel.joinTable.name, Names(rel.joinFields)))
  }

  /** The loop over one table's relations, continuing from the map `fks`. */
  function AddForeignKeys<M>(t: TableMeta<M>, rels: seq<Relation>, fks: map<FK, string>): map<FK, string>
    decreases |rels|
  {
    if rels == [] then fks
    else AddForeignKeys(t, rels[1..], if Nominal(rels[0]) then fks else fks[ForeignKeyOf(t, rels[0]) := ""])
  }

  /** The outer loop over the declared tables, continuing from `st`. On a
      failed field type the state built so far comes back with the error. */
  function InspectFrom<M>(ts: seq<TableMeta<M>>, st: State<M>): InspectResult<M>
    decreases |ts|
  {
    if ts == [] then Returned(st, None)
    else
      var t := ts[0];
      match BuildColumns(t.fields, map[])
      case ColumnsPanic => Panicked
      case ColumnsError(e) => Returned(st, Some(e))
      case Columns(cols) =>
        InspectFrom(ts[1..], State(st.tables + [Table(t.schema, t.name, t.zeroIface, cols)],
                                   AddForeignKeys(t, t.relations, st.fks)))
  }

  /** The result of `Inspect` on the declared tables `ts`. */
  function Inspected<M>(ts: seq<TableMeta<M>>): InspectResult<M> {
    InspectFrom(ts, State([], map[]))
  }

  // ---------------------------------------------------------------------------
  // The imperative Inspect

  /** The `append(cols, f.Name)` loops of `Inspect`: the names of `fields`,
      in order. */
  method CollectNames(fields: seq<Field>) returns (names: seq<string>)
    ensures names == Names(fields)
  {
    names := [];
    var m := 0;
    while m < |fields|
      invariant 0 <= m <= |fields|
      invariant names == Names(fields[..m])
    {
      assert fields[..m + 1][..m] == fields[..m];
      names := names + [fields[m].name];
      m := m + 1;
    }
    assert fields[..m] == fields;
  }

  /** The loop of `Inspect` over one table's fields: each field's column is
      assigned under its name; a type that does not parse panics or ends the
      loop with the error that quotes it. */
  method CollectColumns(fields: seq<Field>) returns (outcome: ColumnsOutcome)
    ensures outcome == BuildColumns(fields, map[])
  {
    var columns: map<string, Column> := map[];
    var j := 0;
    while j < |fields|
      invariant 0 <= j <= |fields|
      invariant BuildColumns(fields, map[]) == BuildColumns(fields[j..], columns)
    {
      var f := fields[j];
      assert fields[j..][0] == f && fields[j..][1..] == fields[j + 1..];
      var parsed := ParseLen(f.createTableSQLType);
      if parsed.SlicePanic? {
        return ColumnsPanic;
      }
      if parsed.err.Some? {
        return ColumnsError(ParseLengthError(f.createTableSQLType, parsed.err.value));
      }
      columns := columns[f.name := Column(
        ToLower(parsed.base), parsed.length, ExprToLower(f.sqlDefault),
        f.isPK, !f.notNull, f.autoIncrement, f.identity)];
      j := j + 1;
    }
    return Columns(columns);
  }

  /** The loop of `Inspect` over one table's relations: every relation that
      is neither many-to-many nor has-many sets its foreign key to "". */
  method CollectForeignKeys<M>(t: TableMeta<M>, fks0: map<FK, string>) returns (fks: map<FK, string>)
    ensures fks == AddForeignKeys(t, t.relations, fks0)
  {
    fks := fks0;
    var k := 0;
    while k < |t.relations|
      invariant 0 <= k <= |t.relations|
      invariant AddForeignKeys(t, t.relations, fks0) == AddForeignKeys(t, t.relations[k..], fks)
    {
      var rel := t.relations[k];
      assert t.relations[k..][0] == rel && t.relations[k..][1..] == t.relations[k + 1..];
      if !(rel.kind == ManyToManyRelation || rel.kind == HasManyRelation) {
        var fromCols := CollectNames(rel.baseFields);
        var toCols := CollectNames(rel.joinFields);
        var target := rel.joinTable;
        fks := fks[FK(C(t.schema, t.name, fromCols), C(target.schema, target.name, toCols)) := ""];
      }
      k := k + 1;
    }
  }

  /** `SchemaInspector.Inspect` over the registered tables, in registry order. */
  method Inspect<M>(tables: seq<TableMeta<M>>) returns (res: InspectResult<M>)
    ensures res == Inspected(tables)
  {
    var state := State([], map[]);
    var i := 0;
    while i < |tables|
      invariant 0 <= i <= |tables|
      invariant Inspected(tables) == InspectFrom(tables[i..], state)
    {
      var t := tables[i];
      assert tables[i..][0] == t && tables[i..][1..] == tables[i + 1..];
      var outcome := CollectColumns(t.fields);
      match outcome {
        case ColumnsPanic =>
          return Panicked;
        case ColumnsError(e) =>
          return Returned(state, Some(e));
        case Columns(columns) =>
          state := state.(tables := state.tables + [Table(t.schema, t.name, t.zeroIface, columns)]);
      }
      var fks := CollectForeignKeys(t, state.fks);
      state := state.(fks := fks);
      i := i + 1;
    }
    return Returned(state, None);
  }

  // ---------------------------------------------------------------------------
  // Errors: the first field type that does not parse decides the outcome

  /** The declared types of `fields`, in order. */
  function Types(fields: seq<Field>): seq<string>
  {
    seq(|fields|, j requires 0 <= j < |fields| => fields[j].createTableSQLType)
  }

  /** The declared types of every field of every table, in processing order. */
  function FieldTypes<M>(ts: seq<TableMeta<M>>): seq<string> {
    if ts == [] then [] else Types(ts[0].fields) + FieldTypes(ts[1..])
  }

  /** What `parseLen` makes of each of `types`. */
  function Parses(types: seq<string>): seq<LenParse>
  {
    seq(|types|, j requires 0 <= j < |types| => ParseLen(types[j]))
  }

  /** The position of the first split that is not clean. */
  function FirstFailure(parses: seq<LenParse>): (r: Option<nat>)
    ensures r.None? <==> forall q :: 0 <= q < |parses| ==> parses[q].Clean()
    ensures r.Some? ==> r.value < |parses| && !parses[r.value].Clean()
    ensures r.Some? ==> forall q :: 0 <= q < r.value ==> parses[q].Clean()
  {
    if parses == [] then None
    else if !parses[0].Clean() then Some(0)
    else Shift(FirstFailure(parses[1..]), 1)
  }

  function Shift(o: Option<nat>, n: nat): Option<nat> {
    match o
    case None => None
    case Some(p) => Some(p + n)
  }

  lemma {:induction false} FirstFailureConcat(a: seq<LenParse>, b: seq<LenParse>)
    ensures FirstFailure(a + b) == if FirstFailure(a).Some? then FirstFailure(a) else Shift(FirstFailure(b), |a|)
  {
    if a == [] {
      assert a + b == b;
    } else {
      var ab := a + b;
      assert ab[0] == a[0];
      assert ab[1..] == a[1..] + b;
      if a[0].Clean() {
        FirstFailureConcat(a[1..], b);
        assert FirstFailure(ab) == Shift(FirstFailure(a[1..] + b), 1);
        assert FirstFailure(a) == Shift(FirstFailure(a[1..]), 1);
      }
    }
  }

  /** How a failed `parseLen` of type `typ` ends the inspection. */
  predicate EndsWith<M>(res: InspectResult<M>, typ: string)
    requires !ParsesCleanly(typ)
  {
    match ParseLen(typ)
    case SlicePanic => res.Panicked?
    case LenParse(_, _, err) => res.Returned? && res.err == Some(ParseLengthError(typ, err.value))
  }

  lemma TypesCons(fields: seq<Field>)
    requires fields != []
    ensures Types(fields) == [fields[0].createTableSQLType] + Types(fields[1..])
  {
    assert forall j :: 0 <= j < |fields| - 1 ==> Types(fields)[j + 1] == Types(fields[1..])[j];
  }

  lemma ParsesConcat(a: seq<string>, b: seq<string>)
    ensures Parses(a + b) == Parses(a) + Parses(b)
  {
    assert forall j :: 0 <= j < |b| ==> (a + b)[|a| + j] == b[j];
  }

  lemma {:induction false} BuildColumnsOutcome(fields: seq<Field>, acc: map<string, Column>)
    ensures var first := FirstFailure(Parses(Types(fields)));
      && (first.None? ==> BuildColumns(fields, acc).Columns?)
      && (first.Some? ==>
            var typ := Types(fields)[first.value];
            match ParseLen(typ)
            case SlicePanic => BuildColumns(fields, acc).ColumnsPanic?
            case LenParse(_, _, err) => BuildColumns(fields, acc) == ColumnsError(ParseLengthError(typ, err.value)))
    decreases |fields|
  {
    if fields != [] {
      var f, rest := fields[0], fields[1..];
      TypesCons(fields);
      ParsesConcat([f.createTableSQLType], Types(rest));
      var parses := Parses(Types(fields));
      assert parses == [ParseLen(f.createTableSQLType)] + Parses(Types(rest));
      if ParsesCleanly(f.createTableSQLType) {
        assert parses[1..] == Parses(Types(rest));
        var later := FirstFailure(Parses(Types(rest)));
        assert FirstFailure(parses) == Shift(later, 1);
        BuildColumnsOutcome(rest, acc[f.name := ColumnOf(f)]);
        if later.Some? {
          assert Types(fields)[later.value + 1] == Types(rest)[later.value];
        }
      } else {
        assert FirstFailure(parses) == Some(0);
      }
    }
  }

  lemma {:induction false} InspectFromOutcome<M>(ts: seq<TableMeta<M>>, st: State<M>)
    ensures var first := FirstFailure(Parses(FieldTypes(ts)));
      && (first.None? ==> InspectFrom(ts, st).Returned? && InspectFrom(ts, st).err.None?)
      && (first.Some? ==> EndsWith(InspectFrom(ts, st), FieldTypes(ts)[first.value]))
    decreases |ts|
  {
    if ts != [] {
      var t := ts[0];
      var own, later := Types(t.fields), FieldTypes(ts[1..]);
      assert FieldTypes(ts) == own + later;
      ParsesConcat(own, later);
      FirstFailureConcat(Parses(own), Parses(later));
      BuildColumnsOutcome(t.fields, map[]);
      var first := FirstFailure(Parses(own));
      if first.Some? {
        assert FieldTypes(ts)[first.value] == own[first.value];
        var outcome := BuildColumns(t.fields, map[]);
        if outcome.ColumnsPanic? {
          assert InspectFrom(ts, st) == Panicked;
        } else if outcome.ColumnsError? {
          assert InspectFrom(ts, st) == Returned(st, Some(outcome.err));
        }
      } else {
        var cols := BuildColumns(t.fields, map[]).columns;
        InspectFromOutcome(ts[1..], State(st.tables + [Table(t.schema, t.name, t.zeroIface, cols)],
                                          AddForeignKeys(t, t.relations, st.fks)));
        var next := FirstFailure(Parses(later));
        if next.Some? {
          assert FieldTypes(ts)[next.value + |own|] == later[next.value];
        }
      }
    }
  }

  /** `Inspect` returns without error exactly when every declared field type
      parses; otherwise the first type (in table order, then field order) that
      does not parse decides: an error that names that type string and carries
      the `Atoi` error, or the panic of `parseLen`. */
  lemma InspectOutcome<M>(ts: seq<TableMeta<M>>)
    ensures (Inspected(ts).Returned? && Inspected(ts).err.None?) <==>
      forall q :: 0 <= q < |FieldTypes(ts)| ==> ParsesCleanly(FieldTypes(ts)[q])
    ensures var first := FirstFailure(Parses(FieldTypes(ts)));
      first.Some? ==> EndsWith(Inspected(ts), FieldTypes(ts)[first.value])
  {
    InspectFromOutcome(ts, State([], map[]));
    var types := FieldTypes(ts);
    assert |Parses(types)| == |types|;
    assert forall q :: 0 <= q < |types| ==> Parses(types)[q] == ParseLen(types[q]);
  }

  /** On an error `Inspect` stops: the state it returns is exactly what a
      successful run over the tables before the failing one produces, and the
      failing table's fields yield that error. */
  lemma {:induction false} InspectFromStops<M>(ts: seq<TableMeta<M>>, st0: State<M>, st: State<M>, e: InspectError)
    requires InspectFrom(ts, st0) == Returned(st, Some(e))
    ensures exists k :: 0 <= k < |ts| && InspectFrom(ts[..k], st0) == Returned(st, None)
                        && BuildColumns(ts[k].fields, map[]) == ColumnsError(e)
    decreases |ts|
  {
    var t := ts[0];
    match BuildColumns(t.fields, map[])
    case ColumnsError(e') =>
      assert InspectFrom(ts[..0], st0) == Returned(st, None);
    case Columns(cols) =>
      var st1 := State(st0.tables + [Table(t.schema, t.name, t.zeroIface, cols)],
                       AddForeignKeys(t, t.relations, st0.fks));
      InspectFromStops(ts[1..], st1, st, e);
      var k :| 0 <= k < |ts[1..]| && InspectFrom(ts[1..][..k], st1) == Returned(st, None)
               && BuildColumns(ts[1..][k].fields, map[]) == ColumnsError(e);
      assert ts[..k + 1][0] == t && ts[..k + 1][1..] == ts[1..][..k];
      assert InspectFrom(ts[..k + 1], st0) == Returned(st, None);
  }

  lemma InspectStops<M>(ts: seq<TableMeta<M>>)
    requires Inspected(ts).Returned? && Inspected(ts).err.Some?
    ensures exists k :: 0 <= k < |ts| && Inspected(ts[..k]) == Returned(Inspected(ts).state, None)
                        && BuildColumns(ts[k].fields, map[]) == ColumnsError(Inspected(ts).err.value)
  {
    InspectFromStops(ts, State([], map[]), Inspected(ts).state, Inspected(ts).err.value);
  }

  // ---------------------------------------------------------------------------
  // Success: one table per declared table, one column per field name

  /** No later field of `fields` has the name of field `j`, so field `j` is
      the one whose column stays in the map. */
  predicate LastWithName(fields: seq<Field>, j: int)
    requires 0 <= j < |fields|
  {
    forall i :: j < i < |fields| ==> fields[i].name != fields[j].name
  }

  /** `m` holds exactly one column per field name, and the column stored under
      a name is the one built from the last field with that name. */
  ghost predicate DeclaresColumns(fields: seq<Field>, m: map<string, Column>) {
    && (forall j :: 0 <= j < |fields| ==> ParsesCleanly(fields[j].createTableSQLType))
    && m.Keys == (set f | f in fields :: f.name)
    && forall j :: 0 <= j < |fields| && LastWithName(fields, j) ==> m[fields[j].name] == ColumnOf(fields[j])
  }

  /** `table` is the state's record of the declared table `meta`. */
  ghost predicate Describes<M>(meta: TableMeta<M>, table: Table<M>) {
    && table.schema == meta.schema
    && table.name == meta.name
    && table.model == meta.zeroIface
    && DeclaresColumns(meta.fields, table.columns)
  }

  lemma {:induction false} BuildColumnsParses(fields: seq<Field>, acc: map<string, Column>)
    requires BuildColumns(fields, acc).Columns?
    ensures forall j :: 0 <= j < |fields| ==> ParsesCleanly(fields[j].createTableSQLType)
    decreases |fields|
  {
    if fields != [] {
      var f := fields[0];
      assert ParseLen(f.createTableSQLType).Clean();
      BuildColumnsParses(fields[1..], acc[f.name := ColumnOf(f)]);
      forall j | 0 < j < |fields| ensures ParsesCleanly(fields[j].createTableSQLType) {
        assert fields[j] == fields[1..][j - 1];
      }
    }
  }

  /** A successful field loop adds exactly the field names to the keys and
      leaves the columns under every other key alone. */
  lemma {:induction false} BuildColumnsKeys(fields: seq<Field>, acc: map<string, Column>, m: map<string, Column>)
    requires BuildColumns(fields, acc) == Columns(m)
    ensures m.Keys == acc.Keys + (set f | f in fields :: f.name)
    ensures forall n :: n in acc && n !in (set f | f in fields :: f.name) ==> m[n] == acc[n]
    decreases |fields|
  {
    if fields != [] {
      var f, rest := fields[0], fields[1..];
      var acc' := acc[f.name := ColumnOf(f)];
      BuildColumnsKeys(rest, acc', m);
      assert (set g | g in fields :: g.name) == {f.name} + (set g | g in rest :: g.name) by {
        assert forall g :: g in fields <==> g == f || g in rest;
      }
    }
  }

  /** After a successful field loop, the column under a field's name is the
      one built from the last field with that name. */
  lemma BuildColumnsValues(fields: seq<Field>, acc: map<string, Column>, m: map<string, Column>)
    requires BuildColumns(fields, acc) == Columns(m)
    ensures forall j :: 0 <= j < |fields| ==> ParsesCleanly(fields[j].createTableSQLType)
    ensures forall j :: 0 <= j < |fields| && LastWithName(fields, j) ==> fields[j].name in m && m[fields[j].name] == ColumnOf(fields[j])
  {
    BuildColumnsParses(fields, acc);
    forall j | 0 <= j < |fields| && LastWithName(fields, j)
      ensures fields[j].name in m && m[fields[j].name] == ColumnOf(fields[j])
    {
      BuildColumnsValueAt(fields, acc, m, j);
    }
  }

  lemma {:induction false} BuildColumnsValueAt(fields: seq<Field>, acc: map<string, Column>, m: map<string, Column>, j: nat)
    requires BuildColumns(fields, acc) == Columns(m)
    requires j < |fields| && LastWithName(fields, j)
    ensures ParsesCleanly(fields[j].createTableSQLType)
    ensures fields[j].name in m && m[fields[j].name] == ColumnOf(fields[j])
    decreases j
  {
    var f, rest := fields[0], fields[1..];
    assert ParseLen(f.createTableSQLType).Clean();
    var acc' := acc[f.name := ColumnOf(f)];
    assert BuildColumns(rest, acc') == Columns(m);
    if j == 0 {
      BuildColumnsKeys(rest, acc', m);
      forall i | 0 <= i < |rest| ensures rest[i].name != f.name {
        assert rest[i] == fields[i + 1];
      }
    } else {
      assert rest[j - 1] == fields[j];
      assert LastWithName(rest, j - 1) by {
        forall i | j - 1 < i < |rest| ensures rest[i].name != rest[j - 1].name {
          assert rest[i] == fields[i + 1];
        }
      }
      BuildColumnsValueAt(rest, acc', m, j - 1);
    }
  }

  /** The table `Inspect` records for the declared table `t` whose fields
      all parse. */
  function TableOf<M>(t: TableMeta<M>): Table<M>
    requires BuildColumns(t.fields, map[]).Columns?
  {
    Table(t.schema, t.name, t.zeroIface, BuildColumns(t.fields, map[]).columns)
  }

  lemma {:induction false} InspectFromTables<M>(ts: seq<TableMeta<M>>, st0: State<M>, st: State<M>)
    requires InspectFrom(ts, st0) == Returned(st, None)
    ensures |st.tables| == |st0.tables| + |ts|
    ensures st.tables[..|st0.tables|] == st0.tables
    ensures forall k :: 0 <= k < |ts| ==>
      BuildColumns(ts[k].fields, map[]).Columns? && st.tables[|st0.tables| + k] == TableOf(ts[k])
    decreases |ts|
  {
    if ts != [] {
      var t := ts[0];
      var st1 := State(st0.tables + [TableOf(t)], AddForeignKeys(t, t.relations, st0.fks));
      InspectFromTables(ts[1..], st1, st);
      assert st.tables[..|st0.tables|] == st1.tables[..|st0.tables|];
      forall k | 0 <= k < |ts|
        ensures BuildColumns(ts[k].fields, map[]).Columns? && st.tables[|st0.tables| + k] == TableOf(ts[k])
      {
        if k == 0 {
          assert st.tables[|st0.tables|] == st1.tables[|st0.tables|];
        } else {
          assert ts[k] == ts[1..][k - 1];
        }
      }
    }
  }

  /** A successful `Inspect` yields one table per declared table, in input
      order, each with the declared schema, name and model handle, and with
      one column per field name built from that field. */
  lemma InspectTables<M>(ts: seq<TableMeta<M>>)
    requires Inspected(ts).Returned? && Inspected(ts).err.None?
    ensures |Inspected(ts).state.tables| == |ts|
    ensures forall k :: 0 <= k < |ts| ==> Describes(ts[k], Inspected(ts).state.tables[k])
  {
    var st := Inspected(ts).state;
    InspectFromTables(ts, State([], map[]), st);
    forall k | 0 <= k < |ts| ensures Describes(ts[k], st.tables[k]) {
      BuildColumnsKeys(ts[k].fields, map[], st.tables[k].columns);
      BuildColumnsValues(ts[k].fields, map[], st.tables[k].columns);
    }
  }

  // ---------------------------------------------------------------------------
  // Success: one foreign key per relation that needs one

  /** `fk` is the foreign key of a relation of one of `ts` that needs one. */
  ghost predicate DeclaredFK<M>(ts: seq<TableMeta<M>>, fk: FK) {
    exists k, r :: 0 <= k < |ts| && r in ts[k].relations && !Nominal(r) && fk == ForeignKeyOf(ts[k], r)
  }

  lemma {:induction false} AddForeignKeysAdds<M>(t: TableMeta<M>, rels: seq<Relation>, fks: map<FK, string>)
    ensures var res := AddForeignKeys(t, rels, fks);
      && fks.Keys <= res.Keys
      && (forall r :: r in rels && !Nominal(r) ==> ForeignKeyOf(t, r) in res && res[ForeignKeyOf(t, r)] == "")
      && (forall fk :: fk in res ==>
            (fk in fks && res[fk] == fks[fk]) ||
            (res[fk] == "" && exists r :: r in rels && !Nominal(r) && fk == ForeignKeyOf(t, r)))
    decreases |rels|
  {
    if rels != [] {
      var r0 := rels[0];
      var fks' := if Nominal(r0) then fks else fks[ForeignKeyOf(t, r0) := ""];
      AddForeignKeysAdds(t, rels[1..], fks');
      assert forall r :: r in rels <==> r == r0 || r in rels[1..];
    }
  }

  lemma {:induction false} InspectFromForeignKeys<M>(ts: seq<TableMeta<M>>, st0: State<M>, st: State<M>)
    requires InspectFrom(ts, st0) == Returned(st, None)
    ensures st0.fks.Keys <= st.fks.Keys
    ensures forall k, r :: 0 <= k < |ts| && r in ts[k].relations && !Nominal(r) ==>
      ForeignKeyOf(ts[k], r) in st.fks && st.fks[ForeignKeyOf(ts[k], r)] == ""
    ensures forall fk :: fk in st.fks ==>
      (fk in st0.fks && st.fks[fk] == st0.fks[fk]) || (st.fks[fk] == "" && DeclaredFK(ts, fk))
    decreases |ts|
  {
    if ts != [] {
      var t := ts[0];
      var cols := BuildColumns(t.fields, map[]).columns;
      var st1 := State(st0.tables + [Table(t.schema, t.name, t.zeroIface, cols)],
                       AddForeignKeys(t, t.relations, st0.fks));
      AddForeignKeysAdds(t, t.relations, st0.fks);
      InspectFromForeignKeys(ts[1..], st1, st);
      forall k, r | 0 <= k < |ts| && r in ts[k].relations && !Nominal(r)
        ensures ForeignKeyOf(ts[k], r) in st.fks && st.fks[ForeignKeyOf(ts[k], r)] == ""
      {
        if k > 0 {
          assert ts[k] == ts[1..][k - 1];
        }
      }
      forall fk | fk in st.fks
        ensures (fk in st0.fks && st.fks[fk] == st0.fks[fk]) || (st.fks[fk] == "" && DeclaredFK(ts, fk))
      {
        if DeclaredFK(ts[1..], fk) {
          var k, r :| 0 <= k < |ts[1..]| && r in ts[1..][k].relations && !Nominal(r) && fk == ForeignKeyOf(ts[1..][k], r);
          assert ts[1..][k] == ts[k + 1];
        } else if fk in st1.fks && !(fk in st0.fks && st1.fks[fk] == st0.fks[fk]) {
          var r :| r in t.relations && !Nominal(r) && fk == ForeignKeyOf(t, r);
          assert ts[0] == t;
        }
      }
    }
  }

  /** A successful `Inspect` records a foreign key for every relation that is
      neither many-to-many nor has-many, from the declaring table's base
      columns to the join table's columns, and no other key; every name is
      empty. */
  lemma InspectForeignKeys<M>(ts: seq<TableMeta<M>>)
    requires Inspected(ts).Returned? && Inspected(ts).err.None?
    ensures forall k, r :: 0 <= k < |ts| && r in ts[k].relations && !Nominal(r) ==>
      ForeignKeyOf(ts[k], r) in Inspected(ts).state.fks
    ensures forall fk :: fk in Inspected(ts).state.fks ==>
      Inspected(ts).state.fks[fk] == "" && DeclaredFK(ts, fk)
  {
    InspectFromForeignKeys(ts, State([], map[]), Inspected(ts).state);
  }

  // ---------------------------------------------------------------------------
  // A worked example

  /** `users(id int PRIMARY KEY AUTOINCREMENT, email TEXT NOT NULL DEFAULT 'USER@x.com')`. */
  function ExampleUsers(): TableMeta<int> {
    TableMeta("public", "users", 1, [
      Field("id", "int", "", true, true, true, false),
      Field("email", "TEXT", "'USER@x.com'", false, true, false, false)], [])
  }

  /** `posts(author_id INT NOT NULL)`, belonging to `users` and having many
      `comments`. */
  function ExamplePosts(): TableMeta<int> {
    TableMeta("public", "posts", 2, [Field("author_id", "INT", "", false, true, false, false)], [
      Relation(BelongsToRelation, [Field("author_id", "INT", "", false, true, false, false)],
               TableName("public", "users"), [Field("id", "int", "", true, true, true, false)]),
      Relation(HasManyRelation, [Field("id", "int", "", true, true, true, false)],
               TableName("public", "comments"), [Field("post_id", "int", "", false, true, false, false)])])
  }

  /** One step of the field loop over a field whose type parses. */
  lemma BuildColumnsStep(f: Field, rest: seq<Field>, acc: map<string, Column>)
    requires ParsesCleanly(f.createTableSQLType)
    ensures BuildColumns([f] + rest, acc) == BuildColumns(rest, acc[f.name := ColumnOf(f)])
  {
    assert ([f] + rest)[0] == f && ([f] + rest)[1..] == rest;
  }

  // The example lemmas below take each field or table as a parameter that a
  // `requires` fixes to the literal, rather than the literal itself: the
  // verifier then reaches the result through the general lemmas instead of
  // evaluating `parseLen` and `ToLower` on the literal character by character.

  lemma ExampleIdColumn(id: Field)
    requires id == Field("id", "int", "", true, true, true, false)
    ensures ParsesCleanly(id.createTableSQLType)
    ensures ColumnOf(id) == Column("int", 0, "", true, false, true, false)
  {
    ParseLenWithoutParen(id.createTableSQLType);
    assert ToLower(id.createTableSQLType) == "int";
  }

  lemma ExampleEmailColumn(email: Field)
    requires email == Field("email", "TEXT", "'USER@x.com'", false, true, false, false)
    ensures ParsesCleanly(email.createTableSQLType)
    ensures ColumnOf(email) == Column("text", 0, "'USER@x.com'", false, false, false, false)
  {
    ParseLenWithoutParen(email.createTableSQLType);
    assert ToLower(email.createTableSQLType) == "text";
    ExprToLowerKeepsLiteral(email.sqlDefault);
  }

  lemma ExampleAuthorColumn(author: Field)
    requires author == Field("author_id", "INT", "", false, true, false, false)
    ensures ParsesCleanly(author.createTableSQLType)
    ensures ColumnOf(author) == Column("int", 0, "", false, false, false, false)
  {
    ParseLenWithoutParen(author.createTableSQLType);
    assert ToLower(author.createTableSQLType) == "int";
  }

  lemma ExampleForeignKeys(posts: TableMeta<int>)
    requires posts == ExamplePosts()
    ensures AddForeignKeys(posts, posts.relations, map[]) ==
      map[FK(C("public", "posts", ["author_id"]), C("public", "users", ["id"])) := ""]
  {
    var rels := posts.relations;
    assert Names(rels[0].baseFields) == ["author_id"];
    assert Names(rels[0].joinFields) == ["id"];
    assert rels[1..][1..] == [];
  }

  /** Table `users` declares `id int` (primary key, auto-increment) and
      `email TEXT NOT NULL DEFAULT 'USER@x.com'`; `posts` belongs to
      `users` through `INT author_id` and has many `comments`. The state
      holds both tables with normalised columns (the quoted default kept as
      written) and the one foreign key of `posts`. */
  lemma InspectExample(users: TableMeta<int>, posts: TableMeta<int>)
    requires users == ExampleUsers() && posts == ExamplePosts()
    ensures Inspected([users, posts]) == Returned(State(
      [Table("public", "users", 1, map[
         "id" := Column("int", 0, "", true, false, true, false),
         "email" := Column("text", 0, "'USER@x.com'", false, false, false, false)]),
       Table("public", "posts", 2, map[
         "author_id" := Column("int", 0, "", false, false, false, false)])],
      map[FK(C("public", "posts", ["author_id"]), C("public", "users", ["id"])) := ""]), None)
  {
    ExampleUsersTable(users);
    ExamplePostsTable(posts);
    ExampleForeignKeys(posts);
    InspectTwoTables(users, posts);
  }

  lemma ExampleUsersTable(users: TableMeta<int>)
    requires users == ExampleUsers()
    ensures BuildColumns(users.fields, map[]).Columns?
    ensures TableOf(users) == Table("public", "users", 1, map[
      "id" := Column("int", 0, "", true, false, true, false),
      "email" := Column("text", 0, "'USER@x.com'", false, false, false, false)])
  {
    var id, email := users.fields[0], users.fields[1];
    ExampleIdColumn(id);
    ExampleEmailColumn(email);
    assert users.fields == [id] + ([email] + []);
    BuildColumnsStep(id, [email], map[]);
    BuildColumnsStep(email, [], map["id" := ColumnOf(id)]);
  }

  lemma ExamplePostsTable(posts: TableMeta<int>)
    requires posts == ExamplePosts()
    ensures BuildColumns(posts.fields, map[]).Columns?
    ensures TableOf(posts) == Table("public", "posts", 2, map[
      "author_id" := Column("int", 0, "", false, false, false, false)])
  {
    var author := posts.fields[0];
    ExampleAuthorColumn(author);
    assert posts.fields == [author] + [];
    BuildColumnsStep(author, [], map[]);
  }

  lemma InspectTwoTables<M>(first: TableMeta<M>, second: TableMeta<M>)
    requires BuildColumns(first.fields, map[]).Columns? && BuildColumns(second.fields, map[]).Columns?
    requires first.relations == []
    ensures Inspected([first, second]) ==
      Returned(State([TableOf(first), TableOf(second)], AddForeignKeys(second, second.relations, map[])), None)
  {
    var empty: State<M> := State([], map[]);
    var st1 := State([TableOf(first)], map[]);
    var st2 := State([TableOf(first), TableOf(second)], AddForeignKeys(second, second.relations, map[]));
    assert InspectFrom([first, second], empty) == InspectFrom([second], st1) by {
      assert [first, second] == [first] + [second];
      assert empty.tables + [TableOf(first)] == [TableOf(first)];
      InspectFromStep(first, [second], empty);
    }
    assert InspectFrom([second], st1) == InspectFrom([], st2) by {
      assert [second] == [second] + [];
      InspectFromStep(second, [], st1);
    }
  }

  lemma InspectFromStep<M>(t: TableMeta<M>, rest: seq<TableMeta<M>>, st: State<M>)
    requires BuildColumns(t.fields, map[]).Columns?
    ensures InspectFrom([t] + rest, st) ==
      InspectFrom(rest, State(st.tables + [TableOf(t)], AddForeignKeys(t, t.relations, st.fks)))
  {
    assert ([t] + rest)[0] == t && ([t] + rest)[1..] == rest;
  }
}
