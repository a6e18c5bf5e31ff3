/**
 * processar_regime_tributario: load the four tax-regime files (presumed,
 * arbitrated and real profit, and the immune entities) into their own
 * tables, stack them into `regime_tributario` with UNION ALL, drop the four
 * part tables, and strip the punctuation from `cnpj`.
 */
module RegimeEngine {
  import opened Wrappers
  import opened SqlText
  import opened Tables
  import opened Exprs
  import opened Db
  import opened Settings
  import opened Core

  const RegimeSchema: Schema := [
    ("ano", Varchar), ("cnpj", Varchar), ("cnpj_da_scp", Varchar), ("forma_de_tributacao", Varchar),
    ("quantidade_de_escrituracoes", Integer)
  ]

  /**
   * The names of the combined table and of its four parts; the parts are
   * named by the table's name followed by the regime.
   */
  datatype PartNames = PartNames(table: string, presumido: string, arbitrado: string, lucroReal: string, imune: string)

  const RegimeNames: PartNames := PartNames(
    RegimeTributario, RegimeTributario + "_lucro_presumido", RegimeTributario + "_lucro_arbitrado",
    RegimeTributario + "_lucro_real", RegimeTributario + "_imune")

  /** The five names are distinct and none of them is the staging table. */
  predicate Separate(n: PartNames)
  {
    && n.table != n.presumido && n.table != n.arbitrado && n.table != n.lucroReal && n.table != n.imune
    && n.presumido != n.arbitrado && n.presumido != n.lucroReal && n.presumido != n.imune
    && n.arbitrado != n.lucroReal && n.arbitrado != n.imune && n.lucroReal != n.imune
    && TempTable !in {n.table, n.presumido, n.arbitrado, n.lucroReal, n.imune}
  }

  function PartPath(raw: string, safra: string, pattern: string): string
  {
    Join([raw, safra, FolderUnzip, pattern])
  }

  /** The table's columns: the five of the file, then `safra`. */
  const RegimeColumns: seq<string> :=
    ["ano", "cnpj", "cnpj_da_scp", "forma_de_tributacao", "quantidade_de_escrituracoes", SafraColumn]

  /** The columns the loader produces for this schema. */
  function LoadedColumns(): seq<string>
  {
    Without(Names(RegimeSchema), SafraColumn) + [SafraColumn]
  }

  /** The names used are separate. */
  lemma NamesDistinct()
    ensures Separate(RegimeNames)
  {
    var n := RegimeNames;
    assert |n.table| == 17;
    assert n.presumido[18] == n.arbitrado[18] == n.lucroReal[18] == 'l' != n.imune[18];
    assert n.presumido[24] == 'p' && n.arbitrado[24] == 'a' && n.lucroReal[24] == 'r';
  }

  /** None of the names is a reference table, so the loader's mapping step never touches them. */
  lemma NamesNotReference()
    ensures forall k :: k in ReferenceNames ==>
      k !in {RegimeNames.table, RegimeNames.presumido, RegimeNames.arbitrado, RegimeNames.lucroReal, RegimeNames.imune}
  {
    var n := RegimeNames;
    assert n.presumido[0] == n.arbitrado[0] == n.lucroReal[0] == n.imune[0] == n.table[0] == 'r';
    assert forall k :: k in ReferenceNames ==> k[0] != 'r';
  }

  /** The loaded columns are the five of the file, then `safra`; `cnpj` is among them. */
  lemma LoadedColumnsOrder()
    ensures LoadedColumns() == RegimeColumns
    ensures "cnpj" in RegimeColumns
  {
    var ns := Names(RegimeSchema);
    assert ns == ["ano", "cnpj", "cnpj_da_scp", "forma_de_tributacao", "quantidade_de_escrituracoes"];
    assert SafraColumn !in ns;
  }

  // ----- the four loads -----

  /** One load_data_to_duckdb call for a part, on values. */
  function LoadPart(cat: map<string, Table>, name: string, pattern: string, sep: string, header: bool,
                    raw: string, safra: string, read: Reader): (map<string, Table>, Outcome<LoadError>)
  {
    LoadResult(cat, PartPath(raw, safra, pattern), RegimeSchema, name, safra, sep, header, raw, read)
  }

  /** A part table is present with the loaded columns. */
  predicate HasPart(cat: map<string, Table>, name: string)
  {
    name in cat && cat[name].columns == RegimeColumns
  }

  predicate HasParts(cat: map<string, Table>, n: PartNames)
  {
    HasPart(cat, n.presumido) && HasPart(cat, n.arbitrado) && HasPart(cat, n.lucroReal) && HasPart(cat, n.imune)
  }

  /** The typed load of one part's files. */
  function PartFile(pattern: string, sep: string, header: bool, raw: string, safra: string, read: Reader)
    : Result<Table, LoadError>
  {
    var path := PartPath(raw, safra, pattern);
    TypedLoad(path, RegimeSchema, read(LoadRequest(path, RegimeSchema, sep, header)), safra)
  }

  /** A load that passes leaves its part with the loaded columns and keeps every other part as it was. */
  lemma LoadPartSpec(cat: map<string, Table>, name: string, pattern: string, sep: string, header: bool,
                     raw: string, safra: string, read: Reader)
    requires name != TempTable
    ensures var (after, o) := LoadPart(cat, name, pattern, sep, header, raw, safra, read);
      && (o.Pass? ==> HasPart(after, name))
      && (o.Pass? ==> PartFile(pattern, sep, header, raw, safra, read).Ok?)
      && (o.Pass? ==> after[name] == PartFile(pattern, sep, header, raw, safra, read).value)
      && (o.Pass? ==> forall k :: k in cat && k != TempTable && k != name ==> k in after && after[k] == cat[k])
  {
    var path := PartPath(raw, safra, pattern);
    var staged := read(LoadRequest(path, RegimeSchema, sep, header));
    if TypedLoad(path, RegimeSchema, staged, safra).Ok? {
      LoadSuccess(cat, path, RegimeSchema, name, safra, sep, header, raw, read);
      LoadedColumnsOrder();
    }
  }

  /**
   * The four loads in source order, stopping at the first that raises:
   * presumed profit (';', no header), arbitrated and real profit (',', with
   * header), the immune entities (';', no header).
   */
  function LoadParts(cat: map<string, Table>, n: PartNames, raw: string, safra: string, read: Reader)
    : (r: (map<string, Table>, Outcome<LoadError>))
    requires Separate(n)
    ensures r.1.Pass? ==> HasParts(r.0, n)
  {
    LoadPartSpec(cat, n.presumido, "Lucro Presumido*", ";", false, raw, safra, read);
    var (c1, o1) := LoadPart(cat, n.presumido, "Lucro Presumido*", ";", false, raw, safra, read);
    if o1.Fail? then (c1, o1)
    else
      LoadPartSpec(c1, n.arbitrado, "Lucro Arbitrado*", ",", true, raw, safra, read);
      var (c2, o2) := LoadPart(c1, n.arbitrado, "Lucro Arbitrado*", ",", true, raw, safra, read);
      if o2.Fail? then (c2, o2)
      else
        LoadPartSpec(c2, n.lucroReal, "Lucro Real*", ",", true, raw, safra, read);
        var (c3, o3) := LoadPart(c2, n.lucroReal, "Lucro Real*", ",", true, raw, safra, read);
        if o3.Fail? then (c3, o3)
        else
          LoadPartSpec(c3, n.imune, "Imunes*", ";", false, raw, safra, read);
          LoadPart(c3, n.imune, "Imunes*", ";", false, raw, safra, read)
  }

  /**
   * When the four loads pass, each part table holds exactly what the typed
   * load of its own files produced: the later loads leave the earlier parts
   * alone.
   */
  lemma LoadPartsValues(cat: map<string, Table>, n: PartNames, raw: string, safra: string, read: Reader)
    requires Separate(n)
    ensures var (after, o) := LoadParts(cat, n, raw, safra, read);
      o.Pass? ==>
        && PartFile("Lucro Presumido*", ";", false, raw, safra, read).Ok?
        && PartFile("Lucro Arbitrado*", ",", true, raw, safra, read).Ok?
        && PartFile("Lucro Real*", ",", true, raw, safra, read).Ok?
        && PartFile("Imunes*", ";", false, raw, safra, read).Ok?
        && after[n.presumido] == PartFile("Lucro Presumido*", ";", false, raw, safra, read).value
        && after[n.arbitrado] == PartFile("Lucro Arbitrado*", ",", true, raw, safra, read).value
        && after[n.lucroReal] == PartFile("Lucro Real*", ",", true, raw, safra, read).value
        && after[n.imune] == PartFile("Imunes*", ";", false, raw, safra, read).value
  {
    LoadPartSpec(cat, n.presumido, "Lucro Presumido*", ";", false, raw, safra, read);
    var (c1, o1) := LoadPart(cat, n.presumido, "Lucro Presumido*", ";", false, raw, safra, read);
    if o1.Pass? {
      LoadPartSpec(c1, n.arbitrado, "Lucro Arbitrado*", ",", true, raw, safra, read);
      var (c2, o2) := LoadPart(c1, n.arbitrado, "Lucro Arbitrado*", ",", true, raw, safra, read);
      if o2.Pass? {
        LoadPartSpec(c2, n.lucroReal, "Lucro Real*", ",", true, raw, safra, read);
        var (c3, o3) := LoadPart(c2, n.lucroReal, "Lucro Real*", ",", true, raw, safra, read);
        if o3.Pass? {
          LoadPartSpec(c3, n.imune, "Imunes*", ";", false, raw, safra, read);
        }
      }
    }
  }

  // ----- the union and the cleanup -----

  /** SELECT * FROM presumido UNION ALL arbitrado UNION ALL real UNION ALL imune. */
  function UnionOfParts(cat: map<string, Table>, n: PartNames): (u: Table)
    requires HasParts(cat, n)
    ensures u.columns == RegimeColumns
  {
    UnionAll(UnionAll(UnionAll(cat[n.presumido], cat[n.arbitrado]), cat[n.lucroReal]), cat[n.imune])
  }

  /** DROP TABLE IF EXISTS on the table, then CREATE TABLE AS the union. */
  function Created(cat: map<string, Table>, n: PartNames): map<string, Table>
    requires HasParts(cat, n)
  {
    (cat - {n.table})[n.table := UnionOfParts(cat, n)]
  }

  /** The four DROP TABLE statements, in source order. */
  function Dropped(c: map<string, Table>, n: PartNames): map<string, Table>
  {
    c - {n.presumido} - {n.imune} - {n.arbitrado} - {n.lucroReal}
  }

  /** UPDATE SET cnpj = the cnpj without '.', '/' and '-'. */
  function Cleaned(c: map<string, Table>, name: string): map<string, Table>
    requires name in c
  {
    c[name := Update(c[name], "cnpj", StripColumn("cnpj"))]
  }

  /**
   * The union statement block and the cleanup: the table is rebuilt from the
   * union, the four parts are dropped (presumido, imune, arbitrado, real),
   * and `cnpj` loses its punctuation.
   */
  function Combine(cat: map<string, Table>, n: PartNames): map<string, Table>
    requires Separate(n) && HasParts(cat, n)
  {
    Cleaned(Dropped(Created(cat, n), n), n.table)
  }

  /**
   * The union keeps every row of every part, in order: presumed, arbitrated,
   * real, immune; so its row count is the sum of the four.
   */
  lemma UnionOrder(cat: map<string, Table>, n: PartNames)
    requires HasParts(cat, n)
    ensures UnionOfParts(cat, n).rows == cat[n.presumido].rows + cat[n.arbitrado].rows + cat[n.lucroReal].rows + cat[n.imune].rows
    ensures |UnionOfParts(cat, n).rows| ==
              |cat[n.presumido].rows| + |cat[n.arbitrado].rows| + |cat[n.lucroReal].rows| + |cat[n.imune].rows|
  {
  }

  /** After the block the table holds as many rows as the union, under the loaded columns. */
  lemma CombineTable(cat: map<string, Table>, n: PartNames)
    requires Separate(n) && HasParts(cat, n)
    ensures var after := Combine(cat, n);
      && n.table in after
      && after[n.table].columns == RegimeColumns
      && |after[n.table].rows| == |UnionOfParts(cat, n).rows|
  {
    assert Dropped(Created(cat, n), n)[n.table] == UnionOfParts(cat, n);
  }

  /** After the block the four parts are gone and every other table is as it was. */
  lemma CombineFrame(cat: map<string, Table>, n: PartNames)
    requires Separate(n) && HasParts(cat, n)
    ensures var after := Combine(cat, n);
      && n.presumido !in after && n.arbitrado !in after && n.lucroReal !in after && n.imune !in after
      && forall k :: k !in {n.table, n.presumido, n.arbitrado, n.lucroReal, n.imune} ==>
           (k in after <==> k in cat) && (k in cat ==> after[k] == cat[k])
  {
  }

  /**
   * Row k of the table is row k of the union with `cnpj` stripped of
   * punctuation and every other column as loaded.
   */
  lemma CombineCells(cat: map<string, Table>, n: PartNames, k: nat)
    requires Separate(n) && HasParts(cat, n) && k < |UnionOfParts(cat, n).rows|
    ensures n.table in Combine(cat, n) && |Combine(cat, n)[n.table].rows| == |UnionOfParts(cat, n).rows|
    ensures var row := UnionOfParts(cat, n).rows[k];
      forall d :: Get(Combine(cat, n)[n.table].rows[k], d) ==
                    if d == "cnpj" then StripPunctuation(Get(row, "cnpj")) else Get(row, d)
  {
    var u := UnionOfParts(cat, n);
    assert Dropped(Created(cat, n), n)[n.table] == u;
    UpdateCells(u, "cnpj", StripColumn("cnpj"), k);
  }

  /** No `cnpj` of the combined table holds a '.', a '/' or a '-'. */
  lemma CombineCnpjClean(cat: map<string, Table>, n: PartNames, k: nat)
    requires Separate(n) && HasParts(cat, n) && k < |UnionOfParts(cat, n).rows|
    ensures n.table in Combine(cat, n) && |Combine(cat, n)[n.table].rows| == |UnionOfParts(cat, n).rows|
    ensures var c := Get(Combine(cat, n)[n.table].rows[k], "cnpj");
      c.Some? ==> forall i :: 0 <= i < |c.value| ==> c.value[i] !in Punctuation
  {
    CombineCells(cat, n, k);
    StripLeavesNoPunctuation(Get(UnionOfParts(cat, n).rows[k], "cnpj"));
  }

  // ----- the statements against the database -----

  /** The four load_data_to_duckdb calls. */
  method LoadPartsInto(db: Store, n: PartNames, raw: string, safra: string, read: Reader) returns (o: Outcome<LoadError>)
    requires Separate(n)
    modifies db
    ensures (db.catalog, o) == LoadParts(old(db.catalog), n, raw, safra, read)
  {
    o := LoadDataToDuckdb(db, PartPath(raw, safra, "Lucro Presumido*"), RegimeSchema, n.presumido, safra,
                          ";", false, raw, read);
    if o.Fail? {
      return;
    }
    o := LoadDataToDuckdb(db, PartPath(raw, safra, "Lucro Arbitrado*"), RegimeSchema, n.arbitrado, safra,
                          ",", true, raw, read);
    if o.Fail? {
      return;
    }
    o := LoadDataToDuckdb(db, PartPath(raw, safra, "Lucro Real*"), RegimeSchema, n.lucroReal, safra,
                          ",", true, raw, read);
    if o.Fail? {
      return;
    }
    o := LoadDataToDuckdb(db, PartPath(raw, safra, "Imunes*"), RegimeSchema, n.imune, safra, ";", false, raw, read);
  }

  /** The first statement block: the union, then the four drops. */
  method UniteParts(db: Store, n: PartNames)
    requires Separate(n) && HasParts(db.catalog, n)
    modifies db
    ensures db.catalog == Dropped(Created(old(db.catalog), n), n)
  {
    ghost var before := db.catalog;
    var u := UnionAll(UnionAll(UnionAll(db.catalog[n.presumido], db.catalog[n.arbitrado]),
                               db.catalog[n.lucroReal]), db.catalog[n.imune]);
    assert u == UnionOfParts(before, n);
    db.DropTableIfExists(n.table);
    db.CreateTable(n.table, u);
    db.DropTable(n.presumido);
    db.DropTable(n.imune);
    db.DropTable(n.arbitrado);
    db.DropTable(n.lucroReal);
  }

  /** The second statement block: the cnpj cleanup. */
  method CleanCnpj(db: Store, name: string)
    requires name in db.catalog && "cnpj" in db.catalog[name].columns
    modifies db
    ensures db.catalog == Cleaned(old(db.catalog), name)
  {
    db.Update(name, "cnpj", StripColumn("cnpj"));
  }

  /** After the first block the table holds the union of the parts. */
  lemma UnitedTable(cat: map<string, Table>, n: PartNames)
    requires Separate(n) && HasParts(cat, n)
    ensures n.table in Dropped(Created(cat, n), n)
    ensures Dropped(Created(cat, n), n)[n.table] == UnionOfParts(cat, n)
    ensures "cnpj" in Dropped(Created(cat, n), n)[n.table].columns
  {
    assert RegimeColumns[1] == "cnpj";
  }

  /** The body of processar_regime_tributario for any separate names. */
  method ProcessParts(db: Store, n: PartNames, raw: string, safra: string, read: Reader)
    returns (r: Result<nat, LoadError>)
    requires Separate(n)
    modifies db
    ensures var (loaded, o) := LoadParts(old(db.catalog), n, raw, safra, read);
      && (o.Fail? ==> r == Err(o.error) && db.catalog == loaded)
      && (o.Pass? ==> db.catalog == Combine(loaded, n) && r == Ok(|UnionOfParts(loaded, n).rows|))
  {
    var o := LoadPartsInto(db, n, raw, safra, read);
    if o.Fail? {
      r := Err(o.error);
      return;
    }
    ghost var loaded := db.catalog;
    UniteParts(db, n);
    UnitedTable(loaded, n);
    CleanCnpj(db, n.table);
    CombineTable(loaded, n);
    var count := db.Count(n.table);
    r := Ok(count);
  }

  /**
   * processar_regime_tributario: a failing load propagates its error with the
   * catalog the loads left; otherwise the parts are combined and the row
   * count of `regime_tributario` is returned.
   */
  method ProcessarRegimeTributario(db: Store, raw: string, safra: string, read: Reader)
    returns (r: Result<nat, LoadError>)
    modifies db
    ensures Separate(RegimeNames)
    ensures var (loaded, o) := LoadParts(old(db.catalog), RegimeNames, raw, safra, read);
      && (o.Fail? ==> r == Err(o.error) && db.catalog == loaded)
      && (o.Pass? ==> db.catalog == Combine(loaded, RegimeNames) && r == Ok(|UnionOfParts(loaded, RegimeNames).rows|))
  {
    NamesDistinct();
    r := ProcessParts(db, RegimeNames, raw, safra, read);
  }
}
