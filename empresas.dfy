/**
 * processar_empresas: load the company file, pad the base CNPJ, describe the
 * size code, and look up the legal nature and the responsible person's
 * qualification in the reference tables.
 */
module EmpresasEngine {
  import opened Wrappers
  import opened SqlText
  import opened Tables
  import opened Exprs
  import opened Db
  import opened Settings
  import opened Core

  const EmpresasSchema: Schema := [
    ("cnpj_basico", Varchar),
    ("razao_social", Varchar),
    ("codigo_natureza_juridica", Varchar),
    ("codigo_qualificacao_responsavel", Varchar),
    ("capital_social", Double),
    ("porte", Varchar),
    ("ente_federativo_responsavel", Varchar)
  ]

  function EmpresasPath(raw: string, safra: string): string
  {
    Join([raw, safra, FolderUnzip, "*.EMPRECSV"])
  }

  /** The size codes and their descriptions, in dictionary order. */
  const PorteCases: seq<(string, string)> := [
    ("01", "NÃO INFORMADO"),
    ("02", "MICRO EMPRESA"),
    ("03", "EMPRESA DE PEQUENO PORTE"),
    ("05", "DEMAIS")
  ]

  /** CASE porte WHEN ... ELSE null END. */
  function PorteDescricao(porte: Cell): Cell
  {
    CaseWhen(porte, PorteCases, None)
  }

  /** Each code gets exactly its description, and any other value (NULL included) gets NULL. */
  lemma PorteDescricaoCodes(porte: Cell)
    ensures PorteDescricao(porte) == Some("NÃO INFORMADO") <==> porte == Some("01")
    ensures PorteDescricao(porte) == Some("MICRO EMPRESA") <==> porte == Some("02")
    ensures PorteDescricao(porte) == Some("EMPRESA DE PEQUENO PORTE") <==> porte == Some("03")
    ensures PorteDescricao(porte) == Some("DEMAIS") <==> porte == Some("05")
    ensures PorteDescricao(porte).None? <==> porte !in {Some("01"), Some("02"), Some("03"), Some("05")}
  {
    var cs := PorteCases;
    assert cs[0].0 == "01" && cs[1].0 == "02" && cs[2].0 == "03" && cs[3].0 == "05";
  }

  /** The first two statements: pad the base CNPJ, then describe the size code. */
  function Describe(t: Table): Table
  {
    Derive(Update(t, "cnpj_basico", PadColumn("cnpj_basico", 8)), "porte_desc", CaseColumn("porte", PorteCases, None))
  }

  /** The two reference lookups, legal nature first. */
  function LookUp(t: Table, naturezas: Table, qualificacoes: Table): Table
  {
    var natureza := Derive(t, "natureza_juridica",
                           LookupColumn(naturezas, "codigo", "natureza_juridica", "codigo_natureza_juridica"));
    Derive(natureza, "qualificacao_responsavel",
           LookupColumn(qualificacoes, "codigo", "descricao", "codigo_qualificacao_responsavel"))
  }

  /** The transformation statements, in order, applied to the loaded table. */
  function Transform(t: Table, naturezas: Table, qualificacoes: Table): Table
  {
    LookUp(Describe(t), naturezas, qualificacoes)
  }

  /** The columns the transformation writes. */
  const Written: set<string> := {"cnpj_basico", "porte_desc", "natureza_juridica", "qualificacao_responsavel"}

  /** The base CNPJ is padded, the size code is described, every other cell is kept. */
  lemma DescribeCells(t: Table, i: nat)
    requires i < |t.rows|
    ensures |Describe(t).rows| == |t.rows|
    ensures var row := t.rows[i];
            var out := Describe(t).rows[i];
      && Get(out, "cnpj_basico") == LPad(Get(row, "cnpj_basico"), 8)
      && Get(out, "porte_desc") == PorteDescricao(Get(row, "porte"))
      && forall c :: c != "cnpj_basico" && c != "porte_desc" ==> Get(out, c) == Get(row, c)
  {
    var padded := Update(t, "cnpj_basico", PadColumn("cnpj_basico", 8));
    UpdateCells(t, "cnpj_basico", PadColumn("cnpj_basico", 8), i);
    DeriveCells(padded, "porte_desc", CaseColumn("porte", PorteCases, None), i);
  }

  /** The two descriptions come from the reference tables, keyed by the row's codes. */
  lemma LookUpCells(t: Table, naturezas: Table, qualificacoes: Table, i: nat)
    requires i < |t.rows|
    ensures |LookUp(t, naturezas, qualificacoes).rows| == |t.rows|
    ensures var row := t.rows[i];
            var out := LookUp(t, naturezas, qualificacoes).rows[i];
      && Get(out, "natureza_juridica") ==
           Lookup(naturezas, "codigo", "natureza_juridica", Get(row, "codigo_natureza_juridica"))
      && Get(out, "qualificacao_responsavel") ==
           Lookup(qualificacoes, "codigo", "descricao", Get(row, "codigo_qualificacao_responsavel"))
      && forall c :: c != "natureza_juridica" && c != "qualificacao_responsavel" ==> Get(out, c) == Get(row, c)
  {
    var natureza := Derive(t, "natureza_juridica",
                           LookupColumn(naturezas, "codigo", "natureza_juridica", "codigo_natureza_juridica"));
    DeriveCells(t, "natureza_juridica",
                LookupColumn(naturezas, "codigo", "natureza_juridica", "codigo_natureza_juridica"), i);
    DeriveCells(natureza, "qualificacao_responsavel",
                LookupColumn(qualificacoes, "codigo", "descricao", "codigo_qualificacao_responsavel"), i);
  }

  /**
   * Row by row: the base CNPJ is padded to 8 characters, the size code is
   * described, and the two descriptions come from the reference tables keyed
   * by the row's codes.
   */
  lemma TransformCells(t: Table, naturezas: Table, qualificacoes: Table, i: nat)
    requires i < |t.rows|
    ensures |Transform(t, naturezas, qualificacoes).rows| == |t.rows|
    ensures var row := t.rows[i];
            var out := Transform(t, naturezas, qualificacoes).rows[i];
      && Get(out, "cnpj_basico") == LPad(Get(row, "cnpj_basico"), 8)
      && Get(out, "porte_desc") == PorteDescricao(Get(row, "porte"))
      && Get(out, "natureza_juridica") ==
           Lookup(naturezas, "codigo", "natureza_juridica", Get(row, "codigo_natureza_juridica"))
      && Get(out, "qualificacao_responsavel") ==
           Lookup(qualificacoes, "codigo", "descricao", Get(row, "codigo_qualificacao_responsavel"))
  {
    DescribeCells(t, i);
    LookUpCells(Describe(t), naturezas, qualificacoes, i);
  }

  /** Every column the transformation does not write keeps its cell. */
  lemma TransformKeeps(t: Table, naturezas: Table, qualificacoes: Table, i: nat, c: string)
    requires i < |t.rows| && c !in Written
    ensures |Transform(t, naturezas, qualificacoes).rows| == |t.rows|
    ensures Get(Transform(t, naturezas, qualificacoes).rows[i], c) == Get(t.rows[i], c)
  {
    DescribeCells(t, i);
    LookUpCells(Describe(t), naturezas, qualificacoes, i);
  }

  /** The loaded columns: the schema's, then `safra`. */
  const LoadedColumns: seq<string> := [
    "cnpj_basico", "razao_social", "codigo_natureza_juridica", "codigo_qualificacao_responsavel",
    "capital_social", "porte", "ente_federativo_responsavel", SafraColumn
  ]

  /** The loader's column list for this schema. */
  lemma LoadedColumnNames()
    ensures Without(Names(EmpresasSchema), SafraColumn) + [SafraColumn] == LoadedColumns
  {
    var ns := Names(EmpresasSchema);
    assert ns == LoadedColumns[..7];
    assert SafraColumn !in ns;
  }

  /** The padded column is loaded; the derived columns are not, and are distinct. */
  lemma DerivedNamesFresh()
    ensures "cnpj_basico" in LoadedColumns
    ensures "porte_desc" !in LoadedColumns
    ensures "natureza_juridica" !in LoadedColumns + ["porte_desc"]
    ensures "qualificacao_responsavel" !in LoadedColumns + ["porte_desc"] + ["natureza_juridica"]
  {
  }

  /**
   * On the table the loader produces, the three described columns are
   * appended after `safra`; no row is added or removed and the table stays
   * well formed.
   */
  lemma TransformShape(t: Table, naturezas: Table, qualificacoes: Table)
    requires t.columns == Without(Names(EmpresasSchema), SafraColumn) + [SafraColumn]
    ensures var u := Transform(t, naturezas, qualificacoes);
      && u.columns == LoadedColumns + ["porte_desc"] + ["natureza_juridica"] + ["qualificacao_responsavel"]
      && |u.rows| == |t.rows|
  {
    LoadedColumnNames();
    DerivedNamesFresh();
    var padded := Update(t, "cnpj_basico", PadColumn("cnpj_basico", 8));
    DeriveFresh(padded, "porte_desc", CaseColumn("porte", PorteCases, None));
    var porte := Derive(padded, "porte_desc", CaseColumn("porte", PorteCases, None));
    DeriveFresh(porte, "natureza_juridica",
                LookupColumn(naturezas, "codigo", "natureza_juridica", "codigo_natureza_juridica"));
    var natureza := Derive(porte, "natureza_juridica",
                           LookupColumn(naturezas, "codigo", "natureza_juridica", "codigo_natureza_juridica"));
    DeriveFresh(natureza, "qualificacao_responsavel",
                LookupColumn(qualificacoes, "codigo", "descricao", "codigo_qualificacao_responsavel"));
  }

  /** The transformation keeps the loaded table well formed. */
  lemma TransformWellFormed(t: Table, naturezas: Table, qualificacoes: Table)
    requires WellFormed(t) && "cnpj_basico" in t.columns
    ensures WellFormed(Transform(t, naturezas, qualificacoes))
  {
    var padded := Update(t, "cnpj_basico", PadColumn("cnpj_basico", 8));
    var porte := Derive(padded, "porte_desc", CaseColumn("porte", PorteCases, None));
    var natureza := Derive(porte, "natureza_juridica",
                           LookupColumn(naturezas, "codigo", "natureza_juridica", "codigo_natureza_juridica"));
    UpdateWellFormed(t, "cnpj_basico", PadColumn("cnpj_basico", 8));
    DeriveWellFormed(padded, "porte_desc", CaseColumn("porte", PorteCases, None));
    DeriveWellFormed(porte, "natureza_juridica",
                     LookupColumn(naturezas, "codigo", "natureza_juridica", "codigo_natureza_juridica"));
    DeriveWellFormed(natureza, "qualificacao_responsavel",
                     LookupColumn(qualificacoes, "codigo", "descricao", "codigo_qualificacao_responsavel"));
  }

  /** The padding and size-description statements against the database. */
  method DescribeEmpresas(db: Store)
    requires Empresas in db.catalog && "cnpj_basico" in db.catalog[Empresas].columns
    modifies db
    ensures db.catalog == old(db.catalog)[Empresas := Describe(old(db.catalog)[Empresas])]
  {
    ghost var before := db.catalog;
    db.Update(Empresas, "cnpj_basico", PadColumn("cnpj_basico", 8));
    ghost var padded := Update(before[Empresas], "cnpj_basico", PadColumn("cnpj_basico", 8));
    db.DeriveColumn(Empresas, "porte_desc", CaseColumn("porte", PorteCases, None));
    StoreTwice(before, Empresas, padded, Describe(before[Empresas]));
  }

  /** The two lookup statements, each reading its reference table as it stands. */
  method LookUpEmpresas(db: Store)
    requires Empresas in db.catalog && NaturezasJuridicas in db.catalog && QualificacoesSocios in db.catalog
    modifies db
    ensures db.catalog == old(db.catalog)[Empresas := LookUp(old(db.catalog)[Empresas],
                                                           old(db.catalog)[NaturezasJuridicas],
                                                           old(db.catalog)[QualificacoesSocios])]
  {
    ghost var before := db.catalog;
    assert Empresas != NaturezasJuridicas && Empresas != QualificacoesSocios;
    db.DeriveColumn(Empresas, "natureza_juridica",
                    LookupColumn(db.catalog[NaturezasJuridicas], "codigo", "natureza_juridica", "codigo_natureza_juridica"));
    ghost var natureza := Derive(before[Empresas], "natureza_juridica",
                                 LookupColumn(before[NaturezasJuridicas], "codigo", "natureza_juridica", "codigo_natureza_juridica"));
    db.DeriveColumn(Empresas, "qualificacao_responsavel",
                    LookupColumn(db.catalog[QualificacoesSocios], "codigo", "descricao", "codigo_qualificacao_responsavel"));
    StoreTwice(before, Empresas, natureza,
               LookUp(before[Empresas], before[NaturezasJuridicas], before[QualificacoesSocios]));
  }

  /**
   * The transformation statements of processar_empresas against the
   * database; the result is the final SELECT COUNT(*).
   */
  method TransformEmpresas(db: Store) returns (n: nat)
    requires Empresas in db.catalog && NaturezasJuridicas in db.catalog && QualificacoesSocios in db.catalog
    requires "cnpj_basico" in db.catalog[Empresas].columns
    modifies db
    ensures db.catalog == old(db.catalog)[Empresas := Transform(old(db.catalog)[Empresas],
                                                              old(db.catalog)[NaturezasJuridicas],
                                                              old(db.catalog)[QualificacoesSocios])]
    ensures n == |old(db.catalog)[Empresas].rows|
  {
    ghost var before := db.catalog;
    assert Empresas != NaturezasJuridicas && Empresas != QualificacoesSocios;
    DescribeEmpresas(db);
    LookUpEmpresas(db);
    StoreTwice(before, Empresas, Describe(before[Empresas]),
               Transform(before[Empresas], before[NaturezasJuridicas], before[QualificacoesSocios]));
    n := db.Count(Empresas);
  }

  /**
   * processar_empresas: a failing load propagates its error with the catalog
   * the loader left; otherwise the company table is transformed in place,
   * reading the reference tables the loader ensured, and its row count is
   * returned.
   */
  method ProcessarEmpresas(db: Store, raw: string, safra: string, read: Reader) returns (r: Result<nat, LoadError>)
    modifies db
    ensures var (loaded, o) := LoadResult(old(db.catalog), EmpresasPath(raw, safra), EmpresasSchema, Empresas, safra, ";", false, raw, read);
      && (o.Fail? ==> r == Err(o.error) && db.catalog == loaded)
      && (o.Pass? ==>
            && db.catalog == loaded[Empresas := Transform(loaded[Empresas], loaded[NaturezasJuridicas], loaded[QualificacoesSocios])]
            && r == Ok(|loaded[Empresas].rows|))
  {
    var o := LoadDataToDuckdb(db, EmpresasPath(raw, safra), EmpresasSchema, Empresas, safra, ";", false, raw, read);
    if o.Fail? {
      r := Err(o.error);
      return;
    }
    assert "cnpj_basico" in db.catalog[Empresas].columns by {
      LoadedColumnNames();
      DerivedNamesFresh();
    }
    assert NaturezasJuridicas in ReferenceNames && QualificacoesSocios in ReferenceNames;
    var n := TransformEmpresas(db);
    r := Ok(n);
  }
}
