/**
 * processar_simples: load the simplified-tax-regime file, pad the base CNPJ,
 * and for each of the two regimes (Simples Nacional, then MEI) describe the
 * option flag in place and rewrite its start and exclusion dates behind the
 * '00000000' sentinel. No column is added.
 */
module SimplesEngine {
  import opened Wrappers
  import opened SqlText
  import opened Tables
  import opened Exprs
  import opened Db
  import opened Settings
  import opened Core

  /** The seven columns of the file, in file order, all VARCHAR. */
  const SimplesColumns: seq<string> :=
    ["cnpj_basico", "opcao_pelo_simples", "data_opcao_pelo_simples", "data_exclusao_opcao_pelo_simples"]
    + ["opcao_pelo_mei", "data_opcao_pelo_mei", "data_exclusao_opcao_pelo_mei"]

  const SimplesSchema: Schema := AllVarchar(SimplesColumns)

  function SimplesPath(raw: string, safra: string): string
  {
    Join([raw, safra, FolderUnzip, "*SIMPLES.CSV*"])
  }

  const OpcaoCases: seq<(string, string)> := [("S", "SIM"), ("N", "NÃO")]

  /** CASE flag WHEN 'S' THEN 'SIM' WHEN 'N' THEN 'NÃO' ELSE 'OUTROS' END. */
  function OpcaoDescricao(flag: Cell): Cell
  {
    CaseWhen(flag, OpcaoCases, Some("OUTROS"))
  }

  /**
   * 'S' reads SIM, 'N' reads NÃO, and every other value, NULL included, reads
   * 'OUTROS', so the flag is never NULL afterwards.
   */
  lemma OpcaoDescricaoCodes(flag: Cell)
    ensures OpcaoDescricao(flag) == Some("SIM") <==> flag == Some("S")
    ensures OpcaoDescricao(flag) == Some("NÃO") <==> flag == Some("N")
    ensures OpcaoDescricao(flag) == Some("OUTROS") <==> flag != Some("S") && flag != Some("N")
    ensures OpcaoDescricao(flag).Some?
  {
    var cs := OpcaoCases;
    assert cs[0].0 == "S" && cs[1].0 == "N";
  }

  /**
   * The flag is described in place, so the statement is not idempotent: a
   * second run turns SIM into 'OUTROS'.
   */
  lemma OpcaoDescricaoNotIdempotent()
    ensures OpcaoDescricao(Some("S")) == Some("SIM")
    ensures OpcaoDescricao(OpcaoDescricao(Some("S"))) == Some("OUTROS")
  {
    OpcaoDescricaoCodes(Some("S"));
    OpcaoDescricaoCodes(Some("SIM"));
  }

  // ----- the transformation, statement group by statement group -----

  /** One regime: the flag described in place, then its two guarded dates. */
  function Regime(t: Table, flag: string, start: string, exclusion: string): Table
  {
    var described := Update(t, flag, CaseColumn(flag, OpcaoCases, Some("OUTROS")));
    var started := Update(described, start, GuardedDateColumn(start));
    Update(started, exclusion, GuardedDateColumn(exclusion))
  }

  /** The transformation statements, in order, applied to the loaded table. */
  function Transform(t: Table): Table
  {
    var padded := Update(t, "cnpj_basico", PadColumn("cnpj_basico", 8));
    var simples := Regime(padded, "opcao_pelo_simples", "data_opcao_pelo_simples", "data_exclusao_opcao_pelo_simples");
    Regime(simples, "opcao_pelo_mei", "data_opcao_pelo_mei", "data_exclusao_opcao_pelo_mei")
  }

  // ----- the cells -----

  /** One regime group describes its flag and rewrites its two dates. */
  lemma RegimeCells(t: Table, flag: string, start: string, exclusion: string, i: nat)
    requires i < |t.rows| && flag != start && flag != exclusion && start != exclusion
    ensures |Regime(t, flag, start, exclusion).rows| == |t.rows|
    ensures var row := t.rows[i];
            var out := Regime(t, flag, start, exclusion).rows[i];
      && Get(out, flag) == OpcaoDescricao(Get(row, flag))
      && Get(out, start) == GuardedDate(Get(row, start))
      && Get(out, exclusion) == GuardedDate(Get(row, exclusion))
  {
    var described := Update(t, flag, CaseColumn(flag, OpcaoCases, Some("OUTROS")));
    var started := Update(described, start, GuardedDateColumn(start));
    UpdateCells(t, flag, CaseColumn(flag, OpcaoCases, Some("OUTROS")), i);
    UpdateCells(described, start, GuardedDateColumn(start), i);
    UpdateCells(started, exclusion, GuardedDateColumn(exclusion), i);
  }

  /** One regime group leaves every other column of the row as it was. */
  lemma RegimeKeeps(t: Table, flag: string, start: string, exclusion: string, i: nat, c: string)
    requires i < |t.rows| && c != flag && c != start && c != exclusion
    ensures |Regime(t, flag, start, exclusion).rows| == |t.rows|
    ensures Get(Regime(t, flag, start, exclusion).rows[i], c) == Get(t.rows[i], c)
  {
    var described := Update(t, flag, CaseColumn(flag, OpcaoCases, Some("OUTROS")));
    var started := Update(described, start, GuardedDateColumn(start));
    UpdateCells(t, flag, CaseColumn(flag, OpcaoCases, Some("OUTROS")), i);
    UpdateCells(described, start, GuardedDateColumn(start), i);
    UpdateCells(started, exclusion, GuardedDateColumn(exclusion), i);
  }

  /** The base CNPJ is padded to 8 and passes both regime groups untouched. */
  lemma TransformCnpj(t: Table, i: nat)
    requires i < |t.rows|
    ensures |Transform(t).rows| == |t.rows|
    ensures Get(Transform(t).rows[i], "cnpj_basico") == LPad(Get(t.rows[i], "cnpj_basico"), 8)
  {
    var padded := Update(t, "cnpj_basico", PadColumn("cnpj_basico", 8));
    var simples := Regime(padded, "opcao_pelo_simples", "data_opcao_pelo_simples", "data_exclusao_opcao_pelo_simples");
    UpdateCells(t, "cnpj_basico", PadColumn("cnpj_basico", 8), i);
    RegimeKeeps(padded, "opcao_pelo_simples", "data_opcao_pelo_simples", "data_exclusao_opcao_pelo_simples", i, "cnpj_basico");
    RegimeKeeps(simples, "opcao_pelo_mei", "data_opcao_pelo_mei", "data_exclusao_opcao_pelo_mei", i, "cnpj_basico");
  }

  /** The Simples Nacional flag and dates, rewritten, pass the MEI group untouched. */
  lemma TransformSimplesOption(t: Table, i: nat)
    requires i < |t.rows|
    ensures |Transform(t).rows| == |t.rows|
    ensures var row := t.rows[i];
            var out := Transform(t).rows[i];
      && Get(out, "opcao_pelo_simples") == OpcaoDescricao(Get(row, "opcao_pelo_simples"))
      && Get(out, "data_opcao_pelo_simples") == GuardedDate(Get(row, "data_opcao_pelo_simples"))
      && Get(out, "data_exclusao_opcao_pelo_simples") == GuardedDate(Get(row, "data_exclusao_opcao_pelo_simples"))
  {
    var padded := Update(t, "cnpj_basico", PadColumn("cnpj_basico", 8));
    var simples := Regime(padded, "opcao_pelo_simples", "data_opcao_pelo_simples", "data_exclusao_opcao_pelo_simples");
    UpdateCells(t, "cnpj_basico", PadColumn("cnpj_basico", 8), i);
    RegimeCells(padded, "opcao_pelo_simples", "data_opcao_pelo_simples", "data_exclusao_opcao_pelo_simples", i);
    RegimeKeeps(simples, "opcao_pelo_mei", "data_opcao_pelo_mei", "data_exclusao_opcao_pelo_mei", i, "opcao_pelo_simples");
    RegimeKeeps(simples, "opcao_pelo_mei", "data_opcao_pelo_mei", "data_exclusao_opcao_pelo_mei", i, "data_opcao_pelo_simples");
    RegimeKeeps(simples, "opcao_pelo_mei", "data_opcao_pelo_mei", "data_exclusao_opcao_pelo_mei", i,
                "data_exclusao_opcao_pelo_simples");
  }

  /** The MEI flag and dates are read untouched by the earlier statements and rewritten. */
  lemma TransformMeiOption(t: Table, i: nat)
    requires i < |t.rows|
    ensures |Transform(t).rows| == |t.rows|
    ensures var row := t.rows[i];
            var out := Transform(t).rows[i];
      && Get(out, "opcao_pelo_mei") == OpcaoDescricao(Get(row, "opcao_pelo_mei"))
      && Get(out, "data_opcao_pelo_mei") == GuardedDate(Get(row, "data_opcao_pelo_mei"))
      && Get(out, "data_exclusao_opcao_pelo_mei") == GuardedDate(Get(row, "data_exclusao_opcao_pelo_mei"))
  {
    var padded := Update(t, "cnpj_basico", PadColumn("cnpj_basico", 8));
    var simples := Regime(padded, "opcao_pelo_simples", "data_opcao_pelo_simples", "data_exclusao_opcao_pelo_simples");
    UpdateCells(t, "cnpj_basico", PadColumn("cnpj_basico", 8), i);
    RegimeKeeps(padded, "opcao_pelo_simples", "data_opcao_pelo_simples", "data_exclusao_opcao_pelo_simples", i, "opcao_pelo_mei");
    RegimeKeeps(padded, "opcao_pelo_simples", "data_opcao_pelo_simples", "data_exclusao_opcao_pelo_simples", i,
                "data_opcao_pelo_mei");
    RegimeKeeps(padded, "opcao_pelo_simples", "data_opcao_pelo_simples", "data_exclusao_opcao_pelo_simples", i,
                "data_exclusao_opcao_pelo_mei");
    RegimeCells(simples, "opcao_pelo_mei", "data_opcao_pelo_mei", "data_exclusao_opcao_pelo_mei", i);
  }

  /** Columns none of the seven statements writes, `safra` among them, are copied unchanged. */
  lemma TransformKeeps(t: Table, i: nat, c: string)
    requires i < |t.rows| && c !in SimplesColumns
    ensures |Transform(t).rows| == |t.rows|
    ensures Get(Transform(t).rows[i], c) == Get(t.rows[i], c)
  {
    var padded := Update(t, "cnpj_basico", PadColumn("cnpj_basico", 8));
    var simples := Regime(padded, "opcao_pelo_simples", "data_opcao_pelo_simples", "data_exclusao_opcao_pelo_simples");
    UpdateCells(t, "cnpj_basico", PadColumn("cnpj_basico", 8), i);
    RegimeKeeps(padded, "opcao_pelo_simples", "data_opcao_pelo_simples", "data_exclusao_opcao_pelo_simples", i, c);
    RegimeKeeps(simples, "opcao_pelo_mei", "data_opcao_pelo_mei", "data_exclusao_opcao_pelo_mei", i, c);
  }

  // ----- the columns -----

  /** Every statement is an in-place UPDATE: the columns and the row count are those loaded. */
  lemma TransformShape(t: Table)
    ensures Transform(t).columns == t.columns && |Transform(t).rows| == |t.rows|
  {
  }

  /** The columns the UPDATE statements rewrite in place are all present. */
  predicate UpdatedPresent(cols: seq<string>)
  {
    forall c :: c in SimplesColumns ==> c in cols
  }

  /** The transformation keeps a well-formed table with all seven columns well formed. */
  lemma TransformWellFormed(t: Table)
    requires WellFormed(t) && UpdatedPresent(t.columns)
    ensures WellFormed(Transform(t))
  {
    SimplesColumnsListed();
    var padded := Update(t, "cnpj_basico", PadColumn("cnpj_basico", 8));
    UpdateWellFormed(t, "cnpj_basico", PadColumn("cnpj_basico", 8));
    RegimeWellFormed(padded, "opcao_pelo_simples", "data_opcao_pelo_simples", "data_exclusao_opcao_pelo_simples");
    var simples := Regime(padded, "opcao_pelo_simples", "data_opcao_pelo_simples", "data_exclusao_opcao_pelo_simples");
    RegimeWellFormed(simples, "opcao_pelo_mei", "data_opcao_pelo_mei", "data_exclusao_opcao_pelo_mei");
  }

  lemma RegimeWellFormed(t: Table, flag: string, start: string, exclusion: string)
    requires WellFormed(t) && flag in t.columns && start in t.columns && exclusion in t.columns
    ensures WellFormed(Regime(t, flag, start, exclusion)) && Regime(t, flag, start, exclusion).columns == t.columns
  {
    var described := Update(t, flag, CaseColumn(flag, OpcaoCases, Some("OUTROS")));
    var started := Update(described, start, GuardedDateColumn(start));
    UpdateWellFormed(t, flag, CaseColumn(flag, OpcaoCases, Some("OUTROS")));
    UpdateWellFormed(described, start, GuardedDateColumn(start));
    UpdateWellFormed(started, exclusion, GuardedDateColumn(exclusion));
  }

  /** The seven column names, one by one. */
  lemma SimplesColumnsListed()
    ensures "cnpj_basico" in SimplesColumns && "opcao_pelo_simples" in SimplesColumns
    ensures "data_opcao_pelo_simples" in SimplesColumns && "data_exclusao_opcao_pelo_simples" in SimplesColumns
    ensures "opcao_pelo_mei" in SimplesColumns && "data_opcao_pelo_mei" in SimplesColumns
    ensures "data_exclusao_opcao_pelo_mei" in SimplesColumns
  {
  }

  /** The columns the loader produces for this schema. */
  function LoadedColumns(): seq<string>
  {
    Without(Names(SimplesSchema), SafraColumn) + [SafraColumn]
  }

  /** The file has no `safra` column, so the loader appends it after the seven. */
  lemma LoadedColumnsOrder()
    ensures LoadedColumns() == SimplesColumns + [SafraColumn]
    ensures UpdatedPresent(LoadedColumns())
  {
    assert SafraColumn !in SimplesColumns;
  }

  // ----- the statements against the database -----

  /** The three statements of one regime. */
  method RegimeSimples(db: Store, flag: string, start: string, exclusion: string)
    requires Simples in db.catalog
    requires flag in db.catalog[Simples].columns && start in db.catalog[Simples].columns
    requires exclusion in db.catalog[Simples].columns
    modifies db
    ensures db.catalog == old(db.catalog)[Simples := Regime(old(db.catalog)[Simples], flag, start, exclusion)]
  {
    ghost var before := db.catalog;
    db.Update(Simples, flag, CaseColumn(flag, OpcaoCases, Some("OUTROS")));
    ghost var described := Update(before[Simples], flag, CaseColumn(flag, OpcaoCases, Some("OUTROS")));
    db.Update(Simples, start, GuardedDateColumn(start));
    ghost var started := Update(described, start, GuardedDateColumn(start));
    StoreTwice(before, Simples, described, started);
    db.Update(Simples, exclusion, GuardedDateColumn(exclusion));
    StoreTwice(before, Simples, started, Regime(before[Simples], flag, start, exclusion));
  }

  /**
   * The transformation statements of processar_simples against the database;
   * the result is the final SELECT COUNT(*).
   */
  method TransformSimples(db: Store) returns (n: nat)
    requires Simples in db.catalog && UpdatedPresent(db.catalog[Simples].columns)
    modifies db
    ensures db.catalog == old(db.catalog)[Simples := Transform(old(db.catalog)[Simples])]
    ensures n == |old(db.catalog)[Simples].rows|
  {
    ghost var before := db.catalog;
    SimplesColumnsListed();
    db.Update(Simples, "cnpj_basico", PadColumn("cnpj_basico", 8));
    ghost var padded := Update(before[Simples], "cnpj_basico", PadColumn("cnpj_basico", 8));
    RegimeSimples(db, "opcao_pelo_simples", "data_opcao_pelo_simples", "data_exclusao_opcao_pelo_simples");
    ghost var simples := Regime(padded, "opcao_pelo_simples", "data_opcao_pelo_simples", "data_exclusao_opcao_pelo_simples");
    StoreTwice(before, Simples, padded, simples);
    RegimeSimples(db, "opcao_pelo_mei", "data_opcao_pelo_mei", "data_exclusao_opcao_pelo_mei");
    StoreTwice(before, Simples, simples, Transform(before[Simples]));
    n := db.Count(Simples);
  }

  /**
   * processar_simples: a failing load propagates its error with the catalog
   * the loader left; otherwise the table is transformed in place and its row
   * count is returned.
   */
  method ProcessarSimples(db: Store, raw: string, safra: string, read: Reader) returns (r: Result<nat, LoadError>)
    modifies db
    ensures var (loaded, o) := LoadResult(old(db.catalog), SimplesPath(raw, safra), SimplesSchema, Simples, safra,
                                          ";", false, raw, read);
      && (o.Fail? ==> r == Err(o.error) && db.catalog == loaded)
      && (o.Pass? ==> db.catalog == loaded[Simples := Transform(loaded[Simples])] && r == Ok(|loaded[Simples].rows|))
  {
    var o := LoadDataToDuckdb(db, SimplesPath(raw, safra), SimplesSchema, Simples, safra, ";", false, raw, read);
    if o.Fail? {
      r := Err(o.error);
      return;
    }
    LoadedColumnsOrder();
    var n := TransformSimples(db);
    r := Ok(n);
  }
}
