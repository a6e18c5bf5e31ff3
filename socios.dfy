/**
 * processar_socios: load the partner file, pad the base CNPJ, describe the
 * partner kind in place, look up the partner's and the legal
 * representative's qualifications, rewrite the entry date behind the
 * '00000000' sentinel, and describe the age band from its padded code.
 */
module SociosEngine {
  import opened Wrappers
  import opened SqlText
  import opened Tables
  import opened Exprs
  import opened Db
  import opened Settings
  import opened Core

  /** The eleven columns of the partner file, in file order, all VARCHAR. */
  const SociosColumns: seq<string> :=
    ["cnpj_basico", "identificador_socio", "nome_razao_social_socio", "documento_socio",
     "qualificacao_socio_codigo", "data_entrada_sociedade"]
    + ["pais", "documento_representante_legal", "representante_legal",
       "qualificacao_representante_legal_codigo", "faixa_etaria_socio_codigo"]

  const SociosSchema: Schema := AllVarchar(SociosColumns)

  function SociosPath(raw: string, safra: string): string
  {
    Join([raw, safra, FolderUnzip, "*.SOCIOCSV"])
  }

  const IdentificadorCases: seq<(string, string)> :=
    [("1", "PESSOA JURIDICA"), ("2", "PESSOA FISICA"), ("3", "ESTRANGEIRO")]

  /** The age-band dictionary, in its insertion order. */
  const FaixaCases: seq<(string, string)> := [
    ("01", "0 a 12 anos"), ("02", "13 a 20 anos"), ("03", "21 a 30 anos"), ("04", "31 a 40 anos"),
    ("05", "41 a 50 anos"), ("06", "51 a 60 anos"), ("07", "61 a 70 anos"), ("08", "71 a 80 anos"),
    ("09", "Maiores de 80 anos"), ("00", "Não se aplica")
  ]

  /** CASE identificador_socio WHEN '1' ... WHEN '3' ... ELSE 'OUTROS' END. */
  function IdentificadorDescricao(kind: Cell): Cell
  {
    CaseWhen(kind, IdentificadorCases, Some("OUTROS"))
  }

  /** CASE faixa_etaria_socio_codigo WHEN '01' ... WHEN '00' ... ELSE null END. */
  function FaixaDescricao(code: Cell): Cell
  {
    CaseWhen(code, FaixaCases, None)
  }

  /**
   * The three kinds get their names; every other value, NULL included, reads
   * 'OUTROS', so the column is never NULL afterwards.
   */
  lemma IdentificadorDescricaoCodes(kind: Cell)
    ensures IdentificadorDescricao(kind) == Some("PESSOA JURIDICA") <==> kind == Some("1")
    ensures IdentificadorDescricao(kind) == Some("PESSOA FISICA") <==> kind == Some("2")
    ensures IdentificadorDescricao(kind) == Some("ESTRANGEIRO") <==> kind == Some("3")
    ensures IdentificadorDescricao(kind) == Some("OUTROS") <==> kind !in {Some("1"), Some("2"), Some("3")}
    ensures IdentificadorDescricao(kind).Some?
  {
    var cs := IdentificadorCases;
    assert cs[0].0 == "1" && cs[1].0 == "2" && cs[2].0 == "3";
  }

  /**
   * The kind is described in place, so the statement is not idempotent: a
   * second run turns every description into 'OUTROS'.
   */
  lemma IdentificadorDescricaoNotIdempotent()
    ensures IdentificadorDescricao(Some("2")) == Some("PESSOA FISICA")
    ensures IdentificadorDescricao(IdentificadorDescricao(Some("2"))) == Some("OUTROS")
  {
    IdentificadorDescricaoCodes(Some("2"));
    IdentificadorDescricaoCodes(Some("PESSOA FISICA"));
  }

  /** The ten age-band codes are distinct. */
  lemma FaixaKeysDistinct()
    ensures DistinctKeys(FaixaCases)
  {
  }

  /**
   * Each of the ten codes reads its own band; any other value, NULL
   * included, reads NULL.
   */
  lemma FaixaDescricaoCodes(code: Cell)
    ensures forall k :: 0 <= k < |FaixaCases| ==> FaixaDescricao(Some(FaixaCases[k].0)) == Some(FaixaCases[k].1)
    ensures (forall k :: 0 <= k < |FaixaCases| ==> code != Some(FaixaCases[k].0)) ==> FaixaDescricao(code).None?
  {
    FaixaKeysDistinct();
    CaseWhenKeys(FaixaCases, None);
  }

  /** The code '00' reads 'Não se aplica'; the unlisted '10' and a NULL code read NULL. */
  lemma FaixaDescricaoSamples()
    ensures FaixaDescricao(Some("00")) == Some("Não se aplica")
    ensures FaixaDescricao(Some("10")).None? && FaixaDescricao(None).None?
  {
    FaixaDescricaoCodes(None);
    assert FaixaCases[9] == ("00", "Não se aplica");
    NotAFaixaCode();
    FaixaDescricaoCodes(Some("10"));
  }

  lemma NotAFaixaCode()
    ensures forall k :: 0 <= k < |FaixaCases| ==> Some("10") != Some(FaixaCases[k].0)
  {
  }

  /**
   * The code is padded to two characters before the CASE reads it, so a
   * one-digit code is described as its two-digit form.
   */
  lemma FaixaPaddedCode(d: char)
    ensures LPad(Some([d]), 2) == Some(['0', d])
    ensures FaixaDescricao(LPad(Some([d]), 2)) == FaixaDescricao(Some(['0', d]))
  {
    assert Zeros(1) == Zeros(0) + "0" == "0";
    assert LPadText([d], 2) == Zeros(1) + [d];
    assert "0" + [d] == ['0', d];
  }

  // ----- the transformation, statement group by statement group -----

  /** The base CNPJ padded to 8, then the partner kind described in place. */
  function Prepare(t: Table): Table
  {
    var padded := Update(t, "cnpj_basico", PadColumn("cnpj_basico", 8));
    Update(padded, "identificador_socio", CaseColumn("identificador_socio", IdentificadorCases, Some("OUTROS")))
  }

  /**
   * The partner's qualification looked up, the guarded entry-date rewrite,
   * and the legal representative's qualification looked up.
   */
  function Qualify(t: Table, qualificacoes: Table): Table
  {
    var socio := Derive(t, "qualificacao_socio",
                        LookupColumn(qualificacoes, "codigo", "descricao", "qualificacao_socio_codigo"));
    var entrada := Update(socio, "data_entrada_sociedade", GuardedDateColumn("data_entrada_sociedade"));
    Derive(entrada, "qualificacao_representante_legal",
           LookupColumn(qualificacoes, "codigo", "descricao", "qualificacao_representante_legal_codigo"))
  }

  /**
   * The age-band block: the band column is dropped and re-added, the code is
   * padded to 2 in place, and the band is set from the padded code.
   */
  function AgeBand(t: Table): Table
  {
    var added := AddColumn(DropColumn(t, "faixa_etaria_socio"), "faixa_etaria_socio");
    var padded := Update(added, "faixa_etaria_socio_codigo", PadColumn("faixa_etaria_socio_codigo", 2));
    Update(padded, "faixa_etaria_socio", CaseColumn("faixa_etaria_socio_codigo", FaixaCases, None))
  }

  /** The transformation statements, in order, applied to the loaded table. */
  function Transform(t: Table, qualificacoes: Table): Table
  {
    AgeBand(Qualify(Prepare(t), qualificacoes))
  }

  /** The columns the transformation writes. */
  const Written: set<string> := {
    "cnpj_basico", "identificador_socio", "qualificacao_socio", "data_entrada_sociedade",
    "qualificacao_representante_legal", "faixa_etaria_socio_codigo", "faixa_etaria_socio"
  }

  // ----- the cells, group by group -----

  lemma PrepareCells(t: Table, i: nat)
    requires i < |t.rows|
    ensures |Prepare(t).rows| == |t.rows|
    ensures var row := t.rows[i];
            var out := Prepare(t).rows[i];
      && Get(out, "cnpj_basico") == LPad(Get(row, "cnpj_basico"), 8)
      && Get(out, "identificador_socio") == IdentificadorDescricao(Get(row, "identificador_socio"))
  {
    var padded := Update(t, "cnpj_basico", PadColumn("cnpj_basico", 8));
    UpdateCells(t, "cnpj_basico", PadColumn("cnpj_basico", 8), i);
    UpdateCells(padded, "identificador_socio", CaseColumn("identificador_socio", IdentificadorCases, Some("OUTROS")), i);
  }

  lemma PrepareKeeps(t: Table, i: nat, c: string)
    requires i < |t.rows| && c != "cnpj_basico" && c != "identificador_socio"
    ensures |Prepare(t).rows| == |t.rows| && Get(Prepare(t).rows[i], c) == Get(t.rows[i], c)
  {
    var padded := Update(t, "cnpj_basico", PadColumn("cnpj_basico", 8));
    UpdateCells(t, "cnpj_basico", PadColumn("cnpj_basico", 8), i);
    UpdateCells(padded, "identificador_socio", CaseColumn("identificador_socio", IdentificadorCases, Some("OUTROS")), i);
  }

  lemma QualifyCells(t: Table, qualificacoes: Table, i: nat)
    requires i < |t.rows|
    ensures |Qualify(t, qualificacoes).rows| == |t.rows|
    ensures var row := t.rows[i];
            var out := Qualify(t, qualificacoes).rows[i];
      && Get(out, "qualificacao_socio") ==
           Lookup(qualificacoes, "codigo", "descricao", Get(row, "qualificacao_socio_codigo"))
      && Get(out, "data_entrada_sociedade") == GuardedDate(Get(row, "data_entrada_sociedade"))
      && Get(out, "qualificacao_representante_legal") ==
           Lookup(qualificacoes, "codigo", "descricao", Get(row, "qualificacao_representante_legal_codigo"))
  {
    var socio := Derive(t, "qualificacao_socio",
                        LookupColumn(qualificacoes, "codigo", "descricao", "qualificacao_socio_codigo"));
    var entrada := Update(socio, "data_entrada_sociedade", GuardedDateColumn("data_entrada_sociedade"));
    DeriveCells(t, "qualificacao_socio",
                LookupColumn(qualificacoes, "codigo", "descricao", "qualificacao_socio_codigo"), i);
    UpdateCells(socio, "data_entrada_sociedade", GuardedDateColumn("data_entrada_sociedade"), i);
    DeriveCells(entrada, "qualificacao_representante_legal",
                LookupColumn(qualificacoes, "codigo", "descricao", "qualificacao_representante_legal_codigo"), i);
  }

  lemma QualifyKeeps(t: Table, qualificacoes: Table, i: nat, c: string)
    requires i < |t.rows|
    requires c != "qualificacao_socio" && c != "data_entrada_sociedade" && c != "qualificacao_representante_legal"
    ensures |Qualify(t, qualificacoes).rows| == |t.rows|
    ensures Get(Qualify(t, qualificacoes).rows[i], c) == Get(t.rows[i], c)
  {
    var socio := Derive(t, "qualificacao_socio",
                        LookupColumn(qualificacoes, "codigo", "descricao", "qualificacao_socio_codigo"));
    var entrada := Update(socio, "data_entrada_sociedade", GuardedDateColumn("data_entrada_sociedade"));
    DeriveCells(t, "qualificacao_socio",
                LookupColumn(qualificacoes, "codigo", "descricao", "qualificacao_socio_codigo"), i);
    UpdateCells(socio, "data_entrada_sociedade", GuardedDateColumn("data_entrada_sociedade"), i);
    DeriveCells(entrada, "qualificacao_representante_legal",
                LookupColumn(qualificacoes, "codigo", "descricao", "qualificacao_representante_legal_codigo"), i);
  }

  lemma AgeBandCells(t: Table, i: nat)
    requires i < |t.rows|
    ensures |AgeBand(t).rows| == |t.rows|
    ensures var row := t.rows[i];
            var out := AgeBand(t).rows[i];
      && Get(out, "faixa_etaria_socio_codigo") == LPad(Get(row, "faixa_etaria_socio_codigo"), 2)
      && Get(out, "faixa_etaria_socio") == FaixaDescricao(LPad(Get(row, "faixa_etaria_socio_codigo"), 2))
  {
    var dropped := DropColumn(t, "faixa_etaria_socio");
    var added := AddColumn(dropped, "faixa_etaria_socio");
    var padded := Update(added, "faixa_etaria_socio_codigo", PadColumn("faixa_etaria_socio_codigo", 2));
    DropColumnCells(t, "faixa_etaria_socio", i);
    AddColumnCells(dropped, "faixa_etaria_socio", i);
    UpdateCells(added, "faixa_etaria_socio_codigo", PadColumn("faixa_etaria_socio_codigo", 2), i);
    UpdateCells(padded, "faixa_etaria_socio", CaseColumn("faixa_etaria_socio_codigo", FaixaCases, None), i);
  }

  lemma AgeBandKeeps(t: Table, i: nat, c: string)
    requires i < |t.rows| && c != "faixa_etaria_socio_codigo" && c != "faixa_etaria_socio"
    ensures |AgeBand(t).rows| == |t.rows| && Get(AgeBand(t).rows[i], c) == Get(t.rows[i], c)
  {
    var dropped := DropColumn(t, "faixa_etaria_socio");
    var added := AddColumn(dropped, "faixa_etaria_socio");
    var padded := Update(added, "faixa_etaria_socio_codigo", PadColumn("faixa_etaria_socio_codigo", 2));
    DropColumnCells(t, "faixa_etaria_socio", i);
    AddColumnCells(dropped, "faixa_etaria_socio", i);
    UpdateCells(added, "faixa_etaria_socio_codigo", PadColumn("faixa_etaria_socio_codigo", 2), i);
    UpdateCells(padded, "faixa_etaria_socio", CaseColumn("faixa_etaria_socio_codigo", FaixaCases, None), i);
  }

  // ----- the cells of the final table -----

  /** Columns the transformation does not write are copied unchanged. */
  lemma TransformKeeps(t: Table, qualificacoes: Table, i: nat, c: string)
    requires i < |t.rows| && c !in Written
    ensures |Transform(t, qualificacoes).rows| == |t.rows|
    ensures Get(Transform(t, qualificacoes).rows[i], c) == Get(t.rows[i], c)
  {
    var p := Prepare(t);
    PrepareKeeps(t, i, c);
    QualifyKeeps(p, qualificacoes, i, c);
    AgeBandKeeps(Qualify(p, qualificacoes), i, c);
  }

  /** In the final table the base CNPJ is padded and the partner kind is described. */
  lemma TransformPrepared(t: Table, qualificacoes: Table, i: nat)
    requires i < |t.rows|
    ensures |Transform(t, qualificacoes).rows| == |t.rows|
    ensures var row := t.rows[i];
            var out := Transform(t, qualificacoes).rows[i];
      && Get(out, "cnpj_basico") == LPad(Get(row, "cnpj_basico"), 8)
      && Get(out, "identificador_socio") == IdentificadorDescricao(Get(row, "identificador_socio"))
  {
    var p := Prepare(t);
    var q := Qualify(p, qualificacoes);
    PrepareCells(t, i);
    QualifyKeeps(p, qualificacoes, i, "cnpj_basico");
    QualifyKeeps(p, qualificacoes, i, "identificador_socio");
    AgeBandKeeps(q, i, "cnpj_basico");
    AgeBandKeeps(q, i, "identificador_socio");
  }

  /** The columns the qualification group reads pass the first group untouched. */
  lemma CodesReachQualify(t: Table, i: nat, c: string)
    requires i < |t.rows|
    requires c in {"qualificacao_socio_codigo", "data_entrada_sociedade", "qualificacao_representante_legal_codigo"}
    ensures |Prepare(t).rows| == |t.rows| && Get(Prepare(t).rows[i], c) == Get(t.rows[i], c)
  {
    PrepareKeeps(t, i, c);
  }

  /**
   * In the final table both qualifications are looked up by the loaded codes
   * and the entry date is the guarded rewrite of the loaded value.
   */
  lemma TransformQualified(t: Table, qualificacoes: Table, i: nat)
    requires i < |t.rows|
    ensures |Transform(t, qualificacoes).rows| == |t.rows|
    ensures var row := t.rows[i];
            var out := Transform(t, qualificacoes).rows[i];
      && Get(out, "qualificacao_socio") ==
           Lookup(qualificacoes, "codigo", "descricao", Get(row, "qualificacao_socio_codigo"))
      && Get(out, "data_entrada_sociedade") == GuardedDate(Get(row, "data_entrada_sociedade"))
      && Get(out, "qualificacao_representante_legal") ==
           Lookup(qualificacoes, "codigo", "descricao", Get(row, "qualificacao_representante_legal_codigo"))
  {
    var p := Prepare(t);
    var q := Qualify(p, qualificacoes);
    CodesReachQualify(t, i, "qualificacao_socio_codigo");
    CodesReachQualify(t, i, "data_entrada_sociedade");
    CodesReachQualify(t, i, "qualificacao_representante_legal_codigo");
    QualifyCells(p, qualificacoes, i);
    AgeBandKeeps(q, i, "qualificacao_socio");
    AgeBandKeeps(q, i, "data_entrada_sociedade");
    AgeBandKeeps(q, i, "qualificacao_representante_legal");
  }

  /**
   * In the final table the age-band code is padded to 2 and the band is the
   * description of the padded code.
   */
  lemma TransformAgeBand(t: Table, qualificacoes: Table, i: nat)
    requires i < |t.rows|
    ensures |Transform(t, qualificacoes).rows| == |t.rows|
    ensures var code := LPad(Get(t.rows[i], "faixa_etaria_socio_codigo"), 2);
            var out := Transform(t, qualificacoes).rows[i];
      && Get(out, "faixa_etaria_socio_codigo") == code
      && Get(out, "faixa_etaria_socio") == FaixaDescricao(code)
  {
    var p := Prepare(t);
    PrepareKeeps(t, i, "faixa_etaria_socio_codigo");
    QualifyKeeps(p, qualificacoes, i, "faixa_etaria_socio_codigo");
    AgeBandCells(Qualify(p, qualificacoes), i);
  }

  // ----- the columns -----

  /** The three derived names are distinct. */
  lemma DerivedNamesDistinct()
    ensures "qualificacao_socio" != "qualificacao_representante_legal"
    ensures "qualificacao_socio" != "faixa_etaria_socio" && "qualificacao_representante_legal" != "faixa_etaria_socio"
    ensures "faixa_etaria_socio_codigo" != "faixa_etaria_socio"
  {
  }

  /** The two qualifications are appended. */
  lemma QualifyShape(t: Table, qualificacoes: Table)
    requires "qualificacao_socio" !in t.columns && "qualificacao_representante_legal" !in t.columns
    ensures Qualify(t, qualificacoes).columns == t.columns + ["qualificacao_socio"] + ["qualificacao_representante_legal"]
  {
    DerivedNamesDistinct();
    var socio := Derive(t, "qualificacao_socio",
                        LookupColumn(qualificacoes, "codigo", "descricao", "qualificacao_socio_codigo"));
    DeriveFresh(t, "qualificacao_socio",
                LookupColumn(qualificacoes, "codigo", "descricao", "qualificacao_socio_codigo"));
    var entrada := Update(socio, "data_entrada_sociedade", GuardedDateColumn("data_entrada_sociedade"));
    DeriveFresh(entrada, "qualificacao_representante_legal",
                LookupColumn(qualificacoes, "codigo", "descricao", "qualificacao_representante_legal_codigo"));
  }

  /** A band column the table does not yet have is appended. */
  lemma AgeBandShape(t: Table)
    requires "faixa_etaria_socio" !in t.columns
    ensures AgeBand(t).columns == t.columns + ["faixa_etaria_socio"]
  {
  }

  /** The derived columns are appended in statement order; no row is added or removed. */
  lemma TransformShape(t: Table, qualificacoes: Table)
    requires "qualificacao_socio" !in t.columns && "qualificacao_representante_legal" !in t.columns
    requires "faixa_etaria_socio" !in t.columns
    ensures Transform(t, qualificacoes).columns ==
              t.columns + ["qualificacao_socio"] + ["qualificacao_representante_legal"] + ["faixa_etaria_socio"]
    ensures |Transform(t, qualificacoes).rows| == |t.rows|
  {
    DerivedNamesDistinct();
    var p := Prepare(t);
    QualifyShape(p, qualificacoes);
    AgeBandShape(Qualify(p, qualificacoes));
  }

  /** The columns the UPDATE statements rewrite in place are all present. */
  predicate UpdatedPresent(cols: seq<string>)
  {
    && "cnpj_basico" in cols && "identificador_socio" in cols
    && "data_entrada_sociedade" in cols && "faixa_etaria_socio_codigo" in cols
  }

  /** The transformation keeps a well-formed table well formed. */
  lemma TransformWellFormed(t: Table, qualificacoes: Table)
    requires WellFormed(t) && UpdatedPresent(t.columns)
    ensures WellFormed(Transform(t, qualificacoes))
  {
    var padded := Update(t, "cnpj_basico", PadColumn("cnpj_basico", 8));
    UpdateWellFormed(t, "cnpj_basico", PadColumn("cnpj_basico", 8));
    UpdateWellFormed(padded, "identificador_socio", CaseColumn("identificador_socio", IdentificadorCases, Some("OUTROS")));
    var p := Prepare(t);
    QualifyWellFormed(p, qualificacoes);
    AgeBandWellFormed(Qualify(p, qualificacoes));
  }

  lemma QualifyWellFormed(t: Table, qualificacoes: Table)
    requires WellFormed(t) && UpdatedPresent(t.columns)
    ensures WellFormed(Qualify(t, qualificacoes)) && UpdatedPresent(Qualify(t, qualificacoes).columns)
  {
    DerivedNamesDistinct();
    var socio := Derive(t, "qualificacao_socio",
                        LookupColumn(qualificacoes, "codigo", "descricao", "qualificacao_socio_codigo"));
    DeriveWellFormed(t, "qualificacao_socio",
                     LookupColumn(qualificacoes, "codigo", "descricao", "qualificacao_socio_codigo"));
    assert UpdatedPresent(socio.columns);
    var entrada := Update(socio, "data_entrada_sociedade", GuardedDateColumn("data_entrada_sociedade"));
    UpdateWellFormed(socio, "data_entrada_sociedade", GuardedDateColumn("data_entrada_sociedade"));
    DeriveWellFormed(entrada, "qualificacao_representante_legal",
                     LookupColumn(qualificacoes, "codigo", "descricao", "qualificacao_representante_legal_codigo"));
  }

  lemma AgeBandWellFormed(t: Table)
    requires WellFormed(t) && "faixa_etaria_socio_codigo" in t.columns
    ensures WellFormed(AgeBand(t))
  {
    DerivedNamesDistinct();
    var dropped := DropColumn(t, "faixa_etaria_socio");
    var added := AddColumn(dropped, "faixa_etaria_socio");
    DropColumnWellFormed(t, "faixa_etaria_socio");
    AddColumnWellFormed(dropped, "faixa_etaria_socio");
    UpdateWellFormed(added, "faixa_etaria_socio_codigo", PadColumn("faixa_etaria_socio_codigo", 2));
    var padded := Update(added, "faixa_etaria_socio_codigo", PadColumn("faixa_etaria_socio_codigo", 2));
    UpdateWellFormed(padded, "faixa_etaria_socio", CaseColumn("faixa_etaria_socio_codigo", FaixaCases, None));
  }

  /** The columns the loader produces for this schema. */
  function LoadedColumns(): seq<string>
  {
    Without(Names(SociosSchema), SafraColumn) + [SafraColumn]
  }

  /** The file has no `safra` column, so the loader appends it after the eleven. */
  lemma LoadedColumnsOrder()
    ensures LoadedColumns() == SociosColumns + [SafraColumn]
  {
    assert SafraColumn !in SociosColumns;
  }

  /** The loaded table has every column the UPDATE statements rewrite. */
  lemma LoadedColumnsPresent()
    ensures UpdatedPresent(LoadedColumns())
  {
    LoadedColumnsOrder();
    assert "cnpj_basico" in SociosColumns && "identificador_socio" in SociosColumns;
    assert "data_entrada_sociedade" in SociosColumns && "faixa_etaria_socio_codigo" in SociosColumns;
  }

  /** The loaded table has none of the derived columns. */
  lemma LoadedColumnsFresh()
    ensures "qualificacao_socio" !in LoadedColumns() && "qualificacao_representante_legal" !in LoadedColumns()
    ensures "faixa_etaria_socio" !in LoadedColumns()
  {
    LoadedColumnsOrder();
    NotLoaded("qualificacao_socio");
    NotLoaded("qualificacao_representante_legal");
    NotLoaded("faixa_etaria_socio");
  }

  lemma NotLoaded(x: string)
    requires x in {"qualificacao_socio", "qualificacao_representante_legal", "faixa_etaria_socio"}
    ensures x !in SociosColumns + [SafraColumn]
  {
  }

  // ----- the statements against the database -----

  /** The padding, then the partner kind in place. */
  method PrepareSocios(db: Store)
    requires Socios in db.catalog && UpdatedPresent(db.catalog[Socios].columns)
    modifies db
    ensures db.catalog == old(db.catalog)[Socios := Prepare(old(db.catalog)[Socios])]
  {
    ghost var before := db.catalog;
    db.Update(Socios, "cnpj_basico", PadColumn("cnpj_basico", 8));
    ghost var padded := Update(before[Socios], "cnpj_basico", PadColumn("cnpj_basico", 8));
    db.Update(Socios, "identificador_socio", CaseColumn("identificador_socio", IdentificadorCases, Some("OUTROS")));
    StoreTwice(before, Socios, padded, Prepare(before[Socios]));
  }

  /** The two lookups around the entry-date rewrite, each reading the reference table as it stands. */
  method QualifySocios(db: Store)
    requires Socios in db.catalog && QualificacoesSocios in db.catalog
    requires UpdatedPresent(db.catalog[Socios].columns)
    modifies db
    ensures db.catalog == old(db.catalog)[Socios := Qualify(old(db.catalog)[Socios], old(db.catalog)[QualificacoesSocios])]
  {
    ghost var before := db.catalog;
    assert Socios != QualificacoesSocios;
    db.DeriveColumn(Socios, "qualificacao_socio",
                    LookupColumn(db.catalog[QualificacoesSocios], "codigo", "descricao", "qualificacao_socio_codigo"));
    ghost var socio := Derive(before[Socios], "qualificacao_socio",
                              LookupColumn(before[QualificacoesSocios], "codigo", "descricao", "qualificacao_socio_codigo"));
    assert "data_entrada_sociedade" in socio.columns;
    db.Update(Socios, "data_entrada_sociedade", GuardedDateColumn("data_entrada_sociedade"));
    ghost var entrada := Update(socio, "data_entrada_sociedade", GuardedDateColumn("data_entrada_sociedade"));
    StoreTwice(before, Socios, socio, entrada);
    db.DeriveColumn(Socios, "qualificacao_representante_legal",
                    LookupColumn(db.catalog[QualificacoesSocios], "codigo", "descricao",
                                 "qualificacao_representante_legal_codigo"));
    StoreTwice(before, Socios, entrada, Qualify(before[Socios], before[QualificacoesSocios]));
  }

  /** The age-band block. */
  method AgeBandSocios(db: Store)
    requires Socios in db.catalog && "faixa_etaria_socio_codigo" in db.catalog[Socios].columns
    modifies db
    ensures db.catalog == old(db.catalog)[Socios := AgeBand(old(db.catalog)[Socios])]
  {
    ghost var before := db.catalog;
    DerivedNamesDistinct();
    db.DropColumnIfExists(Socios, "faixa_etaria_socio");
    ghost var dropped := DropColumn(before[Socios], "faixa_etaria_socio");
    db.AddColumn(Socios, "faixa_etaria_socio");
    ghost var added := AddColumn(dropped, "faixa_etaria_socio");
    StoreTwice(before, Socios, dropped, added);
    db.Update(Socios, "faixa_etaria_socio_codigo", PadColumn("faixa_etaria_socio_codigo", 2));
    ghost var padded := Update(added, "faixa_etaria_socio_codigo", PadColumn("faixa_etaria_socio_codigo", 2));
    StoreTwice(before, Socios, added, padded);
    db.Update(Socios, "faixa_etaria_socio", CaseColumn("faixa_etaria_socio_codigo", FaixaCases, None));
    StoreTwice(before, Socios, padded, AgeBand(before[Socios]));
  }

  /**
   * The transformation statements of processar_socios against the database;
   * the result is the final SELECT COUNT(*).
   */
  method TransformSocios(db: Store) returns (n: nat)
    requires Socios in db.catalog && QualificacoesSocios in db.catalog
    requires UpdatedPresent(db.catalog[Socios].columns)
    modifies db
    ensures db.catalog == old(db.catalog)[Socios := Transform(old(db.catalog)[Socios], old(db.catalog)[QualificacoesSocios])]
    ensures n == |old(db.catalog)[Socios].rows|
  {
    ghost var before := db.catalog;
    assert Socios != QualificacoesSocios;
    PrepareSocios(db);
    ghost var p := Prepare(before[Socios]);
    QualifySocios(db);
    ghost var q := Qualify(p, before[QualificacoesSocios]);
    StoreTwice(before, Socios, p, q);
    AgeBandSocios(db);
    StoreTwice(before, Socios, q, AgeBand(q));
    n := db.Count(Socios);
  }

  /**
   * processar_socios: a failing load propagates its error with the catalog
   * the loader left; otherwise the partner table is transformed in place,
   * reading the qualification table the loader ensured, and its row count
   * is returned.
   */
  method ProcessarSocios(db: Store, raw: string, safra: string, read: Reader) returns (r: Result<nat, LoadError>)
    modifies db
    ensures var (loaded, o) := LoadResult(old(db.catalog), SociosPath(raw, safra), SociosSchema, Socios, safra,
                                          ";", false, raw, read);
      && (o.Fail? ==> r == Err(o.error) && db.catalog == loaded)
      && (o.Pass? ==>
            && db.catalog == loaded[Socios := Transform(loaded[Socios], loaded[QualificacoesSocios])]
            && r == Ok(|loaded[Socios].rows|))
  {
    var o := LoadDataToDuckdb(db, SociosPath(raw, safra), SociosSchema, Socios, safra, ";", false, raw, read);
    if o.Fail? {
      r := Err(o.error);
      return;
    }
    assert UpdatedPresent(db.catalog[Socios].columns) by {
      LoadedColumnsPresent();
    }
    assert QualificacoesSocios in ReferenceNames;
    var n := TransformSocios(db);
    r := Ok(n);
  }
}
