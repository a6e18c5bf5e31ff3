/**
 * The typed loader and the reference-table cache: load_data_to_duckdb,
 * process_mapping and check_table_exists.
 *
 * The CSV reader is an abstract function from a read request (path or
 * glob, separator, header flag, column names) to the staged table it
 * produces or the error it raises.
 */
module Core {
  import opened Wrappers
  import opened SqlText
  import opened Decimal
  import opened Tables
  import opened Db
  import opened Settings

  datatype ColType = Varchar | Integer | Double

  /** An ordered column-name to type dictionary. */
  type Schema = seq<(string, ColType)>

  /** The dictionary's keys, in order. */
  function Names(schema: Schema): seq<string>
  {
    seq(|schema|, j requires 0 <= j < |schema| => schema[j].0)
  }

  /** A dictionary giving every listed column the type VARCHAR. */
  function AllVarchar(cols: seq<string>): (s: Schema)
    ensures Names(s) == cols
    ensures forall j :: 0 <= j < |s| ==> s[j].1 == Varchar
  {
    seq(|cols|, j requires 0 <= j < |cols| => (cols[j], Varchar))
  }

  datatype CsvRequest = CsvRequest(path: string, sep: string, header: bool, names: Option<seq<string>>)

  datatype ReadResult = Read(table: Table) | IoError | ReaderError(message: string)

  /** What reading a request yields; globbing, quoting and sniffing are the reader's. */
  type Reader = CsvRequest -> ReadResult

  datatype LoadError =
    | SafraMissing(path: string)
    | ReadFailed(message: string)
    | ConversionFailed
    | ReferenceLoadFailed(table: string)

  const Int32Min: int := -0x8000_0000
  const Int32Max: int := 0x7FFF_FFFF

  /** CAST(REPLACE(s, ',', '') AS INTEGER): commas dropped, then a 32-bit integer. */
  function CastInteger(s: string): (r: Option<int>)
    ensures r.Some? ==> Int32Min <= r.value <= Int32Max
    ensures r.Some? ==> Parse(WithoutChars(s, {','})) == r
    ensures var p := Parse(WithoutChars(s, {','})); p.Some? && Int32Min <= p.value <= Int32Max ==> r == p
  {
    RemoveCharIsFilter(s, ',');
    match Parse(ReplaceChar(s, ',', ""))
    case Some(n) => if Int32Min <= n <= Int32Max then Some(n) else None
    case None => None
  }

  /** Grouped integers lose their commas: "1,234" becomes 1234. */
  lemma CastIntegerGrouped()
    ensures CastInteger("1,234") == Some(1234)
  {
    DropGroupingComma();
    ParseThousands();
  }

  lemma DropGroupingComma()
    ensures ReplaceChar("1,234", ',', "") == "1234"
  {
    assert "1,234"[1..] == ",234";
    assert ",234"[1..] == "234";
    assert "234"[1..] == "34";
    assert "34"[1..] == "4";
    assert "4"[1..] == [];
  }

  lemma ParseThousands()
    ensures Parse("1234") == Some(1234)
  {
    assert AllDigits("1234");
    assert "1234"[..3] == "123";
    assert "123"[..2] == "12";
    assert "12"[..1] == "1";
    assert "1"[..0] == [];
  }

  /** Every 32-bit integer survives the cast of its own decimal text. */
  lemma CastIntegerRender(n: int)
    requires Int32Min <= n <= Int32Max
    ensures CastInteger(Render(n)) == Some(n)
  {
    var s := Render(n);
    RenderHasNoComma(n);
    RemoveCharIsFilter(s, ',');
    WithoutCharsNoop(s, {','});
    ParseRender(n);
  }

  lemma RenderHasNoComma(n: int)
    ensures forall i :: 0 <= i < |Render(n)| ==> Render(n)[i] !in {','}
  {
    var d := RenderNat(if n < 0 then -n else n);
    assert AllDigits(d);
    if n < 0 {
      assert forall i :: 1 <= i < |Render(n)| ==> Render(n)[i] == d[i - 1];
    }
  }

  /** One select expression built for one schema column. */
  datatype Projection = AsDouble(column: string) | AsInteger(column: string) | AsVarchar(column: string)

  /** The select expression for one `name dtype` entry of the schema. */
  function ProjectionFor(entry: (string, ColType)): (p: Projection)
    ensures p.column == entry.0
    ensures p.AsDouble? <==> entry.1 == Double
    ensures p.AsInteger? <==> entry.1 == Integer
  {
    if entry.1 == Double then AsDouble(entry.0)
    else if entry.1 == Integer then AsInteger(entry.0)
    else AsVarchar(entry.0)
  }

  /** The SELECT list: one expression per declared column, naming that column, in order. */
  function Selection(schema: Schema): (sel: seq<Projection>)
    ensures Columns(sel) == Names(schema)
  {
    seq(|schema|, j requires 0 <= j < |schema| => ProjectionFor(schema[j]))
  }

  /** The loop that builds `select_statements`, one expression per schema column, in order. */
  method SelectStatements(schema: Schema) returns (sel: seq<Projection>)
    ensures |sel| == |schema|
    ensures forall j :: 0 <= j < |schema| ==> sel[j].column == schema[j].0
    ensures forall j :: 0 <= j < |schema| ==> (sel[j].AsDouble? <==> schema[j].1 == Double)
    ensures forall j :: 0 <= j < |schema| ==> (sel[j].AsInteger? <==> schema[j].1 == Integer)
  {
    sel := [];
    var j := 0;
    while j < |schema|
      invariant 0 <= j <= |schema|
      invariant |sel| == j
      invariant forall k :: 0 <= k < j ==> sel[k].column == schema[k].0
      invariant forall k :: 0 <= k < j ==> (sel[k].AsDouble? <==> schema[k].1 == Double)
      invariant forall k :: 0 <= k < j ==> (sel[k].AsInteger? <==> schema[k].1 == Integer)
    {
      var (name, dtype) := schema[j];
      if dtype == Double {
        sel := sel + [AsDouble(name)];
      } else if dtype == Integer {
        sel := sel + [AsInteger(name)];
      } else {
        sel := sel + [AsVarchar(name)];
      }
      j := j + 1;
    }
  }

  /**
   * The value a select expression stores for one staged cell, or None when
   * the cast raises. NULL casts to NULL. A DOUBLE column is kept as text with
   * its decimal comma turned into a point.
   */
  function Project(p: Projection, c: Cell): (r: Option<Cell>)
    ensures c.None? ==> r == Some(None)
    ensures p.AsVarchar? ==> r == Some(c)
    ensures p.AsDouble? ==> r == Some(Replace(c, ',', "."))
    ensures p.AsInteger? && c.Some? ==>
      (r.Some? <==> CastInteger(c.value).Some?) && (r.Some? ==> r.value == Some(Render(CastInteger(c.value).value)))
  {
    match p
    case AsVarchar(_) => Some(c)
    case AsDouble(_) => Some(Replace(c, ',', "."))
    case AsInteger(_) =>
      match c
      case None => Some(None)
      case Some(s) =>
        match CastInteger(s)
        case Some(n) => Some(Some(Render(n)))
        case None => None
  }

  function Columns(sel: seq<Projection>): (cs: seq<string>)
    ensures |cs| == |sel| && forall j :: 0 <= j < |sel| ==> cs[j] == sel[j].column
  {
    seq(|sel|, j requires 0 <= j < |sel| => sel[j].column)
  }

  /** One staged row through the select list, or None when some cast raises. */
  function ProjectRow(sel: seq<Projection>, row: Row): Option<Row>
  {
    if sel == [] then Some(map[])
    else
      match Project(sel[0], Get(row, sel[0].column))
      case None => None
      case Some(v) =>
        match ProjectRow(sel[1..], row)
        case None => None
        case Some(m) => Some(m[sel[0].column := v])
  }

  /** A row converts exactly when every select expression does. */
  lemma {:induction false} ProjectRowDefined(sel: seq<Projection>, row: Row)
    ensures ProjectRow(sel, row).Some? <==> forall j :: 0 <= j < |sel| ==> Project(sel[j], Get(row, sel[j].column)).Some?
  {
    if sel != [] {
      var rest := sel[1..];
      assert forall j :: 1 <= j < |sel| ==> sel[j] == rest[j - 1];
      ProjectRowDefined(rest, row);
    }
  }

  /** A converted row has exactly the selected column names. */
  lemma {:induction false} ProjectRowKeys(sel: seq<Projection>, row: Row)
    ensures ProjectRow(sel, row).Some? ==> ProjectRow(sel, row).value.Keys == set c | c in Columns(sel)
  {
    if sel != [] && ProjectRow(sel, row).Some? {
      var rest := sel[1..];
      assert Columns(rest) == Columns(sel)[1..];
      ProjectRowKeys(rest, row);
      assert Columns(sel) == [sel[0].column] + Columns(rest);
    }
  }

  /** A converted row holds each expression's value under its column name. */
  lemma {:induction false} ProjectRowValues(sel: seq<Projection>, row: Row)
    requires NoDup(Columns(sel))
    ensures ProjectRow(sel, row).Some? ==>
      forall j :: 0 <= j < |sel| ==>
        sel[j].column in ProjectRow(sel, row).value
        && Some(ProjectRow(sel, row).value[sel[j].column]) == Project(sel[j], Get(row, sel[j].column))
  {
    if sel != [] && ProjectRow(sel, row).Some? {
      var rest := sel[1..];
      assert Columns(rest) == Columns(sel)[1..];
      assert forall j :: 1 <= j < |sel| ==> sel[j] == rest[j - 1];
      ProjectRowValues(rest, row);
    }
  }

  /** INSERT ... SELECT over all staged rows: every row converts, or the statement raises. */
  function ProjectRows(sel: seq<Projection>, rows: seq<Row>): Option<seq<Row>>
  {
    if rows == [] then Some([])
    else
      match ProjectRow(sel, rows[0])
      case None => None
      case Some(first) =>
        match ProjectRows(sel, rows[1..])
        case None => None
        case Some(rest) => Some([first] + rest)
  }

  /** The statement succeeds exactly when every row converts, and keeps the rows in order. */
  lemma {:induction false} ProjectRowsSpec(sel: seq<Projection>, rows: seq<Row>)
    ensures ProjectRows(sel, rows).Some? <==> forall i :: 0 <= i < |rows| ==> ProjectRow(sel, rows[i]).Some?
    ensures ProjectRows(sel, rows).Some? ==>
      |ProjectRows(sel, rows).value| == |rows| &&
      forall i :: 0 <= i < |rows| ==> ProjectRows(sel, rows).value[i] == ProjectRow(sel, rows[i]).value
  {
    if rows != [] {
      assert forall i :: 1 <= i < |rows| ==> rows[i] == rows[1..][i - 1];
      ProjectRowsSpec(sel, rows[1..]);
    }
  }

  /** The constant expression of UPDATE ... SET safra = '<safra>'. */
  function SafraValue(safra: string): Row -> Cell
  {
    _ => Some(safra)
  }

  /** DROP COLUMN IF EXISTS safra; ADD COLUMN safra; UPDATE SET safra = '<safra>'. */
  function WithSafra(t: Table, safra: string): Table
  {
    Derive(t, SafraColumn, SafraValue(safra))
  }

  /**
   * The table that load_data_to_duckdb leaves under the destination name, or
   * the error it raises.
   */
  function TypedLoad(path: string, schema: Schema, staged: ReadResult, safra: string): (r: Result<Table, LoadError>)
    ensures staged.IoError? ==> r == Err(SafraMissing(path))
    ensures staged.ReaderError? ==> r == Err(ReadFailed(staged.message))
    ensures r.Ok? ==> staged.Read?
    ensures staged.Read? && r.Err? ==> r.error == ConversionFailed
    ensures r.Ok? ==> |r.value.rows| == |staged.table.rows|
    ensures r.Ok? ==> r.value.columns == Without(Names(schema), SafraColumn) + [SafraColumn]
  {
    match staged
    case IoError => Err(SafraMissing(path))
    case ReaderError(m) => Err(ReadFailed(m))
    case Read(t) =>
      ProjectRowsSpec(Selection(schema), t.rows);
      match ProjectRows(Selection(schema), t.rows)
      case None => Err(ConversionFailed)
      case Some(rows) => Ok(WithSafra(Table(Names(schema), rows), safra))
  }

  /**
   * The load succeeds exactly when every cell of every column casts; the
   * result is well formed, keeps the row count, has the schema's columns
   * with `safra` moved to the end, the period in every row's `safra`, and
   * every other cell converted from the staged one.
   */
  lemma TypedLoadSpec(path: string, schema: Schema, staged: ReadResult, safra: string)
    requires NoDup(Names(schema)) && staged.Read?
    ensures var r := TypedLoad(path, schema, staged, safra);
      && (r.Ok? <==> forall i, j :: 0 <= i < |staged.table.rows| && 0 <= j < |schema| ==>
                       Project(ProjectionFor(schema[j]), Get(staged.table.rows[i], schema[j].0)).Some?)
      && (r.Ok? ==> WellFormed(r.value) && |r.value.rows| == |staged.table.rows|)
      && (r.Ok? ==> r.value.columns == Without(Names(schema), SafraColumn) + [SafraColumn])
      && (r.Ok? ==> forall i :: 0 <= i < |r.value.rows| ==> Get(r.value.rows[i], SafraColumn) == Some(safra))
      && (r.Ok? ==> forall i, j :: 0 <= i < |r.value.rows| && 0 <= j < |schema| && schema[j].0 != SafraColumn ==>
                      Get(r.value.rows[i], schema[j].0) == Project(ProjectionFor(schema[j]), Get(staged.table.rows[i], schema[j].0)).value)
  {
    var t := staged.table;
    var sel := Selection(schema);
    assert Columns(sel) == Names(schema);
    assert forall j :: 0 <= j < |schema| ==> sel[j] == ProjectionFor(schema[j]);
    ProjectRowsSpec(sel, t.rows);
    forall i | 0 <= i < |t.rows|
      ensures ProjectRow(sel, t.rows[i]).Some? <==>
                forall j :: 0 <= j < |schema| ==> Project(ProjectionFor(schema[j]), Get(t.rows[i], schema[j].0)).Some?
      ensures ProjectRow(sel, t.rows[i]).Some? ==> ProjectRow(sel, t.rows[i]).value.Keys == set c | c in Names(schema)
      ensures ProjectRow(sel, t.rows[i]).Some? ==> forall j :: 0 <= j < |schema| ==>
                ProjectRow(sel, t.rows[i]).value[schema[j].0] == Project(ProjectionFor(schema[j]), Get(t.rows[i], schema[j].0)).value
    {
      ProjectRowDefined(sel, t.rows[i]);
      ProjectRowKeys(sel, t.rows[i]);
      ProjectRowValues(sel, t.rows[i]);
    }
    if ProjectRows(sel, t.rows).Some? {
      var base := Table(Names(schema), ProjectRows(sel, t.rows).value);
      assert WellFormed(base) by {
        assert ColumnSet(base) == set c | c in Names(schema);
      }
      DeriveWellFormed(base, SafraColumn, SafraValue(safra));
      forall i | 0 <= i < |t.rows|
        ensures forall d :: Get(WithSafra(base, safra).rows[i], d) ==
                  if d == SafraColumn then Some(safra) else Get(base.rows[i], d)
      {
        DeriveCells(base, SafraColumn, SafraValue(safra), i);
      }
    }
  }

  /** A schema without a `safra` column gets exactly its columns, in order, then `safra`. */
  lemma TypedLoadColumns(path: string, schema: Schema, staged: ReadResult, safra: string)
    requires NoDup(Names(schema)) && SafraColumn !in Names(schema)
    requires TypedLoad(path, schema, staged, safra).Ok?
    ensures TypedLoad(path, schema, staged, safra).value.columns == Names(schema) + [SafraColumn]
  {
    TypedLoadSpec(path, schema, staged, safra);
  }

  /** VARCHAR columns are copied unchanged; INTEGER columns are cast with commas removed. */
  lemma TypedLoadCells(path: string, schema: Schema, staged: ReadResult, safra: string, i: nat, j: nat)
    requires NoDup(Names(schema)) && TypedLoad(path, schema, staged, safra).Ok?
    requires i < |staged.table.rows| && j < |schema| && schema[j].0 != SafraColumn
    ensures var out := Get(TypedLoad(path, schema, staged, safra).value.rows[i], schema[j].0);
            var inp := Get(staged.table.rows[i], schema[j].0);
            && (schema[j].1 == Varchar ==> out == inp)
            && (schema[j].1 == Integer && inp.Some? ==>
                  CastInteger(inp.value).Some? && out == Some(Render(CastInteger(inp.value).value)))
            && (inp.None? ==> out.None?)
  {
    TypedLoadSpec(path, schema, staged, safra);
    var t := TypedLoad(path, schema, staged, safra).value;
    assert i < |t.rows|;
    var p := Project(ProjectionFor(schema[j]), Get(staged.table.rows[i], schema[j].0));
    assert p.Some?;
  }

  // ----- reference tables -----

  const ReferenceNames: seq<string> := [QualificacoesSocios, Pais, NaturezasJuridicas, Municipios, Motivos, Cnaes]

  const CnaeUrl: string := "https://servicodados.ibge.gov.br/api/v2/cnae/classes"

  /** The read each reference table is created from when it is absent. */
  function ReferenceRequest(name: string, raw: string, safra: string): CsvRequest
  {
    if name == QualificacoesSocios then
      CsvRequest(Join([raw, safra, "unzip", "*.QUALSCSV"]), ";", false, Some(["codigo", "descricao"]))
    else if name == Pais then
      CsvRequest(Join([raw, safra, "unzip", "*.PAISCSV"]), ";", false, Some(["codigo", "pais"]))
    else if name == NaturezasJuridicas then
      CsvRequest(Join([raw, safra, "unzip", "*.NATJUCSV"]), ";", false, Some(["codigo", "natureza_juridica"]))
    else if name == Municipios then
      CsvRequest(Join([raw, safra, "unzip", "*.MUNICCSV"]), ";", false, Some(["codigo", "municipio"]))
    else if name == Motivos then
      CsvRequest(Join([raw, safra, "unzip", "*.MOTICSV"]), ";", false, Some(["codigo", "motivo"]))
    else
      CsvRequest(CnaeUrl, ",", true, None)
  }

  /**
   * One `if not check_table_exists(...)` block of process_mapping, on values:
   * a present table is kept, an absent one is created from its read, and a
   * failing read raises.
   */
  function MappingStep(cat: map<string, Table>, name: string, raw: string, safra: string, read: Reader)
    : (map<string, Table>, Outcome<LoadError>)
  {
    if name in cat then (cat, Pass)
    else match read(ReferenceRequest(name, raw, safra))
      case Read(t) => (cat[name := t], Pass)
      case _ => (cat, Fail(ReferenceLoadFailed(name)))
  }

  /** The blocks of process_mapping for `names`, in order, stopping at the first that raises. */
  function Mapping(cat: map<string, Table>, names: seq<string>, raw: string, safra: string, read: Reader)
    : (map<string, Table>, Outcome<LoadError>)
    decreases |names|
  {
    if names == [] then (cat, Pass)
    else
      var (next, o) := MappingStep(cat, names[0], raw, safra, read);
      if o.Fail? then (next, o) else Mapping(next, names[1..], raw, safra, read)
  }

  /**
   * What process_mapping promises: only the listed tables can appear, an
   * existing table is never replaced, a created table is what its read
   * produced; it passes exactly when every absent table reads, and then every
   * listed table is present; a failure names an absent table whose read failed.
   */
  lemma {:induction false} MappingSpec(cat: map<string, Table>, names: seq<string>, raw: string, safra: string, read: Reader)
    requires NoDup(names)
    decreases |names|
    ensures var (after, o) := Mapping(cat, names, raw, safra, read);
      && (forall k :: k !in names ==> (k in after <==> k in cat))
      && (forall k :: k in cat ==> k in after && after[k] == cat[k])
      && (forall k :: k in after && k !in cat ==>
            read(ReferenceRequest(k, raw, safra)).Read? && after[k] == read(ReferenceRequest(k, raw, safra)).table)
      && (o.Pass? <==> forall k :: k in names && k !in cat ==> read(ReferenceRequest(k, raw, safra)).Read?)
      && (o.Pass? ==> forall k :: k in names ==> k in after)
      && (o.Fail? ==> o.error.ReferenceLoadFailed? && o.error.table in names && o.error.table !in cat &&
                      !read(ReferenceRequest(o.error.table, raw, safra)).Read?)
  {
    if names != [] {
      var n := names[0];
      var (next, o) := MappingStep(cat, n, raw, safra, read);
      assert forall k :: k in names[1..] <==> k in names && k != n;
      if o.Pass? {
        assert NoDup(names[1..]);
        MappingSpec(next, names[1..], raw, safra, read);
      }
    }
  }

  /** Running process_mapping again right after it passed changes nothing. */
  lemma {:induction false} MappingIdempotent(cat: map<string, Table>, names: seq<string>, raw: string, safra: string, read: Reader)
    requires NoDup(names) && Mapping(cat, names, raw, safra, read).1.Pass?
    ensures var after := Mapping(cat, names, raw, safra, read).0;
            Mapping(after, names, raw, safra, read) == (after, Pass)
  {
    MappingSpec(cat, names, raw, safra, read);
    MappingPresent(Mapping(cat, names, raw, safra, read).0, names, raw, safra, read);
  }

  /** When every listed table is present, process_mapping reads nothing and passes. */
  lemma {:induction false} MappingPresent(cat: map<string, Table>, names: seq<string>, raw: string, safra: string, read: Reader)
    requires forall k :: k in names ==> k in cat
    decreases |names|
    ensures Mapping(cat, names, raw, safra, read) == (cat, Pass)
  {
    if names != [] {
      assert forall k :: k in names[1..] ==> k in names;
      MappingPresent(cat, names[1..], raw, safra, read);
    }
  }

  /** One block of process_mapping followed by the rest of them. */
  lemma MappingUnfold(cat: map<string, Table>, names: seq<string>, next: map<string, Table>, o: Outcome<LoadError>,
                      raw: string, safra: string, read: Reader)
    requires names != [] && (next, o) == MappingStep(cat, names[0], raw, safra, read)
    ensures o.Fail? ==> Mapping(cat, names, raw, safra, read) == (next, o)
    ensures o.Pass? ==> Mapping(cat, names, raw, safra, read) == Mapping(next, names[1..], raw, safra, read)
  {
  }

  /** check_table_exists: the catalog count for the name is greater than zero. */
  method CheckTableExists(db: Store, name: string) returns (exists_: bool)
    ensures exists_ <==> name in db.catalog
  {
    var matching := set k | k in db.catalog.Keys && k == name;
    assert name in db.catalog ==> matching == {name};
    assert name !in db.catalog ==> matching == {};
    exists_ := |matching| > 0;
  }

  /** One `if not check_table_exists(...)` block of process_mapping. */
  method EnsureReference(db: Store, name: string, raw: string, safra: string, read: Reader) returns (r: Outcome<LoadError>)
    modifies db
    ensures (db.catalog, r) == MappingStep(old(db.catalog), name, raw, safra, read)
  {
    var present := CheckTableExists(db, name);
    if present {
      r := Pass;
      return;
    }
    db.DropTableIfExists(name);
    assert db.catalog == old(db.catalog);
    match read(ReferenceRequest(name, raw, safra))
    case Read(t) =>
      db.CreateTable(name, t);
      r := Pass;
    case _ =>
      r := Fail(ReferenceLoadFailed(name));
  }

  /**
   * process_mapping: the six reference tables in order, each created only
   * when check_table_exists says it is absent. A failing read propagates and
   * leaves the later references unattempted.
   */
  method ProcessMapping(db: Store, raw: string, safra: string, read: Reader) returns (r: Outcome<LoadError>)
    modifies db
    ensures (db.catalog, r) == Mapping(old(db.catalog), ReferenceNames, raw, safra, read)
  {
    ghost var rest := ReferenceNames;
    ghost var before := db.catalog;
    r := EnsureReference(db, QualificacoesSocios, raw, safra, read);
    MappingUnfold(before, rest, db.catalog, r, raw, safra, read);
    if r.Pass? {
      rest, before := rest[1..], db.catalog;
      assert rest == [Pais, NaturezasJuridicas, Municipios, Motivos, Cnaes];
      r := EnsureReference(db, Pais, raw, safra, read);
      MappingUnfold(before, rest, db.catalog, r, raw, safra, read);
      if r.Pass? {
        rest, before := rest[1..], db.catalog;
        r := EnsureReference(db, NaturezasJuridicas, raw, safra, read);
        MappingUnfold(before, rest, db.catalog, r, raw, safra, read);
        if r.Pass? {
          rest, before := rest[1..], db.catalog;
          r := EnsureReference(db, Municipios, raw, safra, read);
          MappingUnfold(before, rest, db.catalog, r, raw, safra, read);
          if r.Pass? {
            rest, before := rest[1..], db.catalog;
            r := EnsureReference(db, Motivos, raw, safra, read);
            MappingUnfold(before, rest, db.catalog, r, raw, safra, read);
            if r.Pass? {
              rest, before := rest[1..], db.catalog;
              r := EnsureReference(db, Cnaes, raw, safra, read);
              MappingUnfold(before, rest, db.catalog, r, raw, safra, read);
              assert rest[1..] == [];
            }
          }
        }
      }
    }
  }

  /** The read load_data_to_duckdb issues: the schema's names, given separator and header flag. */
  function LoadRequest(path: string, schema: Schema, sep: string, header: bool): CsvRequest
  {
    CsvRequest(path, sep, header, Some(Names(schema)))
  }

  /**
   * The second statement batch of load_data_to_duckdb: DROP and CREATE the
   * destination with the schema's columns, then INSERT the converted staging
   * rows; a failing cast leaves the destination empty.
   */
  method RebuildDestination(db: Store, schema: Schema, tableName: string) returns (ok: bool)
    requires tableName != TempTable && TempTable in db.catalog
    modifies db
    ensures ok <==> ProjectRows(Selection(schema), old(db.catalog[TempTable]).rows).Some?
    ensures !ok ==> db.catalog == old(db.catalog)[tableName := Table(Names(schema), [])]
    ensures ok ==> db.catalog == old(db.catalog)[tableName :=
      Table(Names(schema), ProjectRows(Selection(schema), old(db.catalog[TempTable]).rows).value)]
  {
    var sel := SelectStatements(schema);
    assert sel == Selection(schema);
    db.DropTableIfExists(tableName);
    db.CreateTable(tableName, Table(Names(schema), []));
    var rows := ProjectRows(sel, db.catalog[TempTable].rows);
    if rows.None? {
      ok := false;
      return;
    }
    db.Insert(tableName, rows.value);
    assert [] + rows.value == rows.value;
    ok := true;
  }

  /**
   * Everything load_data_to_duckdb does once the staging table holds
   * `staged`: rebuild the destination, fill `safra`, drop the staging table
   * and ensure the reference tables.
   */
  method LoadStaged(db: Store, schema: Schema, tableName: string, safra: string, staged: Table,
                    raw: string, read: Reader) returns (r: Outcome<LoadError>)
    requires tableName != TempTable && TempTable !in db.catalog
    modifies db
    ensures ProjectRows(Selection(schema), staged.rows).None? ==>
      && r == Fail(ConversionFailed)
      && db.catalog == old(db.catalog)[TempTable := staged][tableName := Table(Names(schema), [])]
    ensures ProjectRows(Selection(schema), staged.rows).Some? ==>
      (db.catalog, r) == Mapping(old(db.catalog)[tableName := WithSafra(Table(Names(schema), ProjectRows(Selection(schema), staged.rows).value), safra)],
                                 ReferenceNames, raw, safra, read)
  {
    db.CreateTable(TempTable, staged);
    var ok := RebuildDestination(db, schema, tableName);
    if !ok {
      r := Fail(ConversionFailed);
      return;
    }
    ghost var base := Table(Names(schema), ProjectRows(Selection(schema), staged.rows).value);
    ghost var filled := WithSafra(base, safra);
    assert (db.catalog - {TempTable})[tableName := filled] == old(db.catalog)[tableName := filled] by {
      assert db.catalog == old(db.catalog)[TempTable := staged][tableName := base];
    }
    r := FinishLoad(db, tableName, safra, raw, read);
  }

  /**
   * The end of load_data_to_duckdb once the destination holds the converted
   * rows: fill `safra`, drop the staging table, ensure the reference tables.
   */
  method FinishLoad(db: Store, tableName: string, safra: string, raw: string, read: Reader) returns (r: Outcome<LoadError>)
    requires tableName != TempTable && tableName in db.catalog
    modifies db
    ensures (db.catalog, r) ==
      Mapping((old(db.catalog) - {TempTable})[tableName := WithSafra(old(db.catalog[tableName]), safra)], ReferenceNames, raw, safra, read)
  {
    db.DeriveColumn(tableName, SafraColumn, SafraValue(safra));
    db.DropTableIfExists(TempTable);
    assert db.catalog == (old(db.catalog) - {TempTable})[tableName := WithSafra(old(db.catalog[tableName]), safra)];
    r := ProcessMapping(db, raw, safra, read);
  }

  /** The catalog and outcome load_data_to_duckdb leaves, on values. */
  function LoadResult(cat: map<string, Table>, path: string, schema: Schema, tableName: string, safra: string,
                      sep: string, header: bool, raw: string, read: Reader): (r: (map<string, Table>, Outcome<LoadError>))
    ensures r.1.Pass? ==>
      && TypedLoad(path, schema, read(LoadRequest(path, schema, sep, header)), safra).Ok?
      && tableName in r.0
      && r.0[tableName] == TypedLoad(path, schema, read(LoadRequest(path, schema, sep, header)), safra).value
      && forall k :: k in ReferenceNames ==> k in r.0
  {
    var base := cat - {TempTable};
    var staged := read(LoadRequest(path, schema, sep, header));
    match TypedLoad(path, schema, staged, safra)
    case Ok(t) =>
      ReferenceNamesDistinct();
      MappingSpec(base[tableName := t], ReferenceNames, raw, safra, read);
      Mapping(base[tableName := t], ReferenceNames, raw, safra, read)
    case Err(e) =>
      if staged.Read? then (base[TempTable := staged.table][tableName := Table(Names(schema), [])], Fail(e))
      else (base, Fail(e))
  }

  /**
   * load_data_to_duckdb: stage the read in temp_table, rebuild the
   * destination with typed columns, append and fill `safra`, drop the
   * staging table, then ensure the reference tables.
   */
  method LoadDataToDuckdb(db: Store, path: string, schema: Schema, tableName: string, safra: string,
                          sep: string, header: bool, raw: string, read: Reader) returns (r: Outcome<LoadError>)
    requires tableName != TempTable
    modifies db
    ensures (db.catalog, r) == LoadResult(old(db.catalog), path, schema, tableName, safra, sep, header, raw, read)
  {
    var req := CsvRequest(path, sep, header, Some(Names(schema)));
    db.DropTableIfExists(TempTable);
    var staged := read(req);
    if !staged.Read? {
      r := Fail(if staged.IoError? then SafraMissing(path) else ReadFailed(staged.message));
      return;
    }
    r := LoadStaged(db, schema, tableName, safra, staged.table, raw, read);
  }

  lemma ReferenceNamesDistinct()
    ensures NoDup(ReferenceNames)
    ensures TempTable !in ReferenceNames
  {
  }

  /**
   * A failed read drops only the staging table; a failed cast keeps the
   * staged rows and leaves the destination empty with the schema's columns.
   */
  lemma LoadFailure(cat: map<string, Table>, path: string, schema: Schema, tableName: string, safra: string,
                    sep: string, header: bool, raw: string, read: Reader)
    requires NoDup(Names(schema)) && tableName != TempTable
    ensures var staged := read(LoadRequest(path, schema, sep, header));
            var (after, o) := LoadResult(cat, path, schema, tableName, safra, sep, header, raw, read);
      && (staged.IoError? ==> after == cat - {TempTable} && o == Fail(SafraMissing(path)))
      && (staged.ReaderError? ==> after == cat - {TempTable} && o == Fail(ReadFailed(staged.message)))
      && (staged.Read? && TypedLoad(path, schema, staged, safra).Err? ==>
            && o == Fail(ConversionFailed)
            && after[tableName] == Table(Names(schema), []) && after[TempTable] == staged.table
            && exists i, j :: 0 <= i < |staged.table.rows| && 0 <= j < |schema| &&
                 Project(ProjectionFor(schema[j]), Get(staged.table.rows[i], schema[j].0)).None?)
  {
    var staged := read(LoadRequest(path, schema, sep, header));
    if staged.Read? {
      TypedLoadSpec(path, schema, staged, safra);
    }
  }

  /**
   * A successful load leaves the typed table under the destination name, no
   * staging table, every other table as it was unless process_mapping created
   * it, and, when it passes, all reference tables.
   */
  lemma LoadSuccess(cat: map<string, Table>, path: string, schema: Schema, tableName: string, safra: string,
                    sep: string, header: bool, raw: string, read: Reader)
    requires tableName != TempTable
    requires TypedLoad(path, schema, read(LoadRequest(path, schema, sep, header)), safra).Ok?
    ensures var (after, o) := LoadResult(cat, path, schema, tableName, safra, sep, header, raw, read);
      && tableName in after
      && after[tableName] == TypedLoad(path, schema, read(LoadRequest(path, schema, sep, header)), safra).value
      && TempTable !in after
      && (forall k :: k in cat && k != TempTable && k != tableName ==> k in after && after[k] == cat[k])
      && (forall k :: k !in ReferenceNames && k != tableName ==> (k in after <==> k in cat && k != TempTable))
      && (o.Pass? ==> forall k :: k in ReferenceNames ==> k in after)
  {
    var t := TypedLoad(path, schema, read(LoadRequest(path, schema, sep, header)), safra).value;
    var m := (cat - {TempTable})[tableName := t];
    assert LoadResult(cat, path, schema, tableName, safra, sep, header, raw, read) == Mapping(m, ReferenceNames, raw, safra, read);
    ReferenceNamesDistinct();
    MappingSpec(m, ReferenceNames, raw, safra, read);
    MappingAround(cat, m, ReferenceNames, tableName, t, raw, safra, read);
  }

  lemma MappingAround(cat: map<string, Table>, m: map<string, Table>, names: seq<string>, tableName: string, t: Table,
                      raw: string, safra: string, read: Reader)
    requires m == (cat - {TempTable})[tableName := t] && TempTable !in names && tableName != TempTable
    requires var (after, o) := Mapping(m, names, raw, safra, read);
      && (forall k :: k !in names ==> (k in after <==> k in m))
      && (forall k :: k in m ==> k in after && after[k] == m[k])
      && (o.Pass? ==> forall k :: k in names ==> k in after)
    ensures var (after, o) := Mapping(m, names, raw, safra, read);
      && tableName in after && after[tableName] == t
      && TempTable !in after
      && (forall k :: k in cat && k != TempTable && k != tableName ==> k in after && after[k] == cat[k])
      && (forall k :: k !in names && k != tableName ==> (k in after <==> k in cat && k != TempTable))
      && (o.Pass? ==> forall k :: k in names ==> k in after)
  {
  }

  /**
   * Loading is safe to repeat: a second load of the same input leaves the
   * destination exactly as the first did, whatever the first left behind.
   */
  lemma LoadRepeatable(cat: map<string, Table>, path: string, schema: Schema, tableName: string, safra: string,
                       sep: string, header: bool, raw: string, read: Reader)
    requires tableName != TempTable
    requires TypedLoad(path, schema, read(LoadRequest(path, schema, sep, header)), safra).Ok?
    ensures var once := LoadResult(cat, path, schema, tableName, safra, sep, header, raw, read).0;
            var twice := LoadResult(once, path, schema, tableName, safra, sep, header, raw, read).0;
            tableName in once && tableName in twice && twice[tableName] == once[tableName]
  {
    LoadSuccess(cat, path, schema, tableName, safra, sep, header, raw, read);
    var once := LoadResult(cat, path, schema, tableName, safra, sep, header, raw, read).0;
    LoadSuccess(once, path, schema, tableName, safra, sep, header, raw, read);
  }
}
