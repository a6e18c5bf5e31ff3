/**
 * processar_estabelecimentos: load the establishment file, pad the three CNPJ
 * parts and join them into `cnpj`, rewrite the three dates positionally,
 * describe the head-office flag and the registration status, and look up the
 * status reason and the municipality in the reference tables.
 */
module EstabelecimentosEngine {
  import opened Wrappers
  import opened SqlText
  import opened Tables
  import opened Exprs
  import opened Db
  import opened Settings
  import opened Core

  /** The thirty columns of the establishment file, in file order, all VARCHAR. */
  const EstabelecimentosColumns: seq<string> :=
    ["cnpj_basico", "cnpj_ordem", "cnpj_dv", "matriz_filial", "nome_fantasia", "situacao_cadastral"]
    + ["data_situacao_cadastral", "situacao_cadastral_motivo_codigo", "nome_na_cidade_no_exterior", "pais",
       "data_inicio_atividade", "cnae_principal"]
    + ["cnae_secundarios", "tipo_de_logradouro", "logradouro", "numero", "complemento", "bairro"]
    + ["cep", "uf", "municipio_codigo", "tel1_dd", "tel1", "tel2_dd"]
    + ["tel2", "fax_dd", "fax", "email", "situacao_especial", "data_situacao_especial"]

  const EstabelecimentosSchema: Schema := AllVarchar(EstabelecimentosColumns)

  function EstabelecimentosPath(raw: string, safra: string): string
  {
    Join([raw, safra, FolderUnzip, "*.ESTABELE"])
  }

  /** The head-office flag and its descriptions, in dictionary order. */
  const MatrizCases: seq<(string, string)> := [("1", "MATRIZ"), ("2", "FILIAL")]

  /** The registration status codes and their descriptions, in dictionary order. */
  const SituacaoCases: seq<(string, string)> := [
    ("01", "NULA"), ("02", "ATIVA"), ("03", "SUSPENSA"), ("04", "INAPTA"), ("08", "BAIXADA")
  ]

  /** CASE matriz_filial WHEN '1' THEN 'MATRIZ' WHEN '2' THEN 'FILIAL' ELSE null END. */
  function MatrizDescricao(flag: Cell): Cell
  {
    CaseWhen(flag, MatrizCases, None)
  }

  /** CASE situacao_cadastral WHEN ... ELSE null END. */
  function SituacaoDescricao(situacao: Cell): Cell
  {
    CaseWhen(situacao, SituacaoCases, None)
  }

  /** '1' reads MATRIZ, '2' reads FILIAL, and anything else (NULL included) reads NULL. */
  lemma MatrizDescricaoCodes(flag: Cell)
    ensures MatrizDescricao(flag) == Some("MATRIZ") <==> flag == Some("1")
    ensures MatrizDescricao(flag) == Some("FILIAL") <==> flag == Some("2")
    ensures MatrizDescricao(flag).None? <==> flag != Some("1") && flag != Some("2")
  {
    var cs := MatrizCases;
    assert cs[0].0 == "1" && cs[1].0 == "2";
  }

  /**
   * The flag is described in place, so the statement is not idempotent: a
   * second run turns every description into NULL.
   */
  lemma MatrizDescricaoNotIdempotent()
    ensures MatrizDescricao(Some("1")) == Some("MATRIZ")
    ensures MatrizDescricao(MatrizDescricao(Some("1"))) == None
  {
    MatrizDescricaoCodes(Some("1"));
    MatrizDescricaoCodes(Some("MATRIZ"));
  }

  /** Each status code gets exactly its description; any other value gets NULL. */
  lemma SituacaoDescricaoCodes(situacao: Cell)
    ensures SituacaoDescricao(situacao) == Some("NULA") <==> situacao == Some("01")
    ensures SituacaoDescricao(situacao) == Some("ATIVA") <==> situacao == Some("02")
    ensures SituacaoDescricao(situacao) == Some("SUSPENSA") <==> situacao == Some("03")
    ensures SituacaoDescricao(situacao) == Some("INAPTA") <==> situacao == Some("04")
    ensures SituacaoDescricao(situacao) == Some("BAIXADA") <==> situacao == Some("08")
    ensures SituacaoDescricao(situacao).None? <==>
              situacao !in {Some("01"), Some("02"), Some("03"), Some("04"), Some("08")}
  {
    var cs := SituacaoCases;
    assert cs[0].0 == "01" && cs[1].0 == "02" && cs[2].0 == "03" && cs[3].0 == "04" && cs[4].0 == "08";
  }

  // ----- the transformation, statement group by statement group -----

  /** The three LPAD updates: base to 8, order to 4, check digits to 4. */
  function Pad(t: Table): Table
  {
    var basico := Update(t, "cnpj_basico", PadColumn("cnpj_basico", 8));
    var ordem := Update(basico, "cnpj_ordem", PadColumn("cnpj_ordem", 4));
    Update(ordem, "cnpj_dv", PadColumn("cnpj_dv", 4))
  }

  /** The derived `cnpj` column, cnpj_basico || cnpj_ordem || cnpj_dv. */
  function AddCnpj(t: Table): Table
  {
    Derive(t, "cnpj", ConcatColumns("cnpj_basico", "cnpj_ordem", "cnpj_dv"))
  }

  /** The three unguarded positional date rewrites. */
  function ReformatDates(t: Table): Table
  {
    var cadastral := Update(t, "data_situacao_cadastral", DateColumn("data_situacao_cadastral"));
    var inicio := Update(cadastral, "data_inicio_atividade", DateColumn("data_inicio_atividade"));
    Update(inicio, "data_situacao_especial", DateColumn("data_situacao_especial"))
  }

  /** The flag described in place, then the derived status description. */
  function Describe(t: Table): Table
  {
    var matriz := Update(t, "matriz_filial", CaseColumn("matriz_filial", MatrizCases, None));
    Derive(matriz, "situacao_cadastral_descricao", CaseColumn("situacao_cadastral", SituacaoCases, None))
  }

  /** The two reference lookups, status reason first. */
  function LookUp(t: Table, motivos: Table, municipios: Table): Table
  {
    var motivo := Derive(t, "situacao_cadastral_motivo",
                         LookupColumn(motivos, "codigo", "motivo", "situacao_cadastral_motivo_codigo"));
    Derive(motivo, "municipio", LookupColumn(municipios, "codigo", "municipio", "municipio_codigo"))
  }

  /** The transformation statements, in order, applied to the loaded table. */
  function Transform(t: Table, motivos: Table, municipios: Table): Table
  {
    LookUp(Describe(ReformatDates(AddCnpj(Pad(t)))), motivos, municipios)
  }

  /** The columns the transformation writes. */
  const Written: set<string> := {
    "cnpj_basico", "cnpj_ordem", "cnpj_dv", "cnpj", "data_situacao_cadastral", "data_inicio_atividade",
    "data_situacao_especial", "matriz_filial", "situacao_cadastral_descricao", "situacao_cadastral_motivo", "municipio"
  }

  lemma PadCells(t: Table, i: nat)
    requires i < |t.rows|
    ensures |Pad(t).rows| == |t.rows|
    ensures var row := t.rows[i];
            var out := Pad(t).rows[i];
      && Get(out, "cnpj_basico") == LPad(Get(row, "cnpj_basico"), 8)
      && Get(out, "cnpj_ordem") == LPad(Get(row, "cnpj_ordem"), 4)
      && Get(out, "cnpj_dv") == LPad(Get(row, "cnpj_dv"), 4)
  {
    var basico := Update(t, "cnpj_basico", PadColumn("cnpj_basico", 8));
    var ordem := Update(basico, "cnpj_ordem", PadColumn("cnpj_ordem", 4));
    UpdateCells(t, "cnpj_basico", PadColumn("cnpj_basico", 8), i);
    UpdateCells(basico, "cnpj_ordem", PadColumn("cnpj_ordem", 4), i);
    UpdateCells(ordem, "cnpj_dv", PadColumn("cnpj_dv", 4), i);
  }

  lemma AddCnpjCells(t: Table, i: nat)
    requires i < |t.rows|
    ensures |AddCnpj(t).rows| == |t.rows|
    ensures var row := t.rows[i];
            var out := AddCnpj(t).rows[i];
      && Get(out, "cnpj") == Concat(Concat(Get(row, "cnpj_basico"), Get(row, "cnpj_ordem")), Get(row, "cnpj_dv"))
  {
    DeriveCells(t, "cnpj", ConcatColumns("cnpj_basico", "cnpj_ordem", "cnpj_dv"), i);
  }

  lemma ReformatDatesCells(t: Table, i: nat)
    requires i < |t.rows|
    ensures |ReformatDates(t).rows| == |t.rows|
    ensures var row := t.rows[i];
            var out := ReformatDates(t).rows[i];
      && Get(out, "data_situacao_cadastral") == Reformat(Get(row, "data_situacao_cadastral"))
      && Get(out, "data_inicio_atividade") == Reformat(Get(row, "data_inicio_atividade"))
      && Get(out, "data_situacao_especial") == Reformat(Get(row, "data_situacao_especial"))
  {
    var cadastral := Update(t, "data_situacao_cadastral", DateColumn("data_situacao_cadastral"));
    var inicio := Update(cadastral, "data_inicio_atividade", DateColumn("data_inicio_atividade"));
    UpdateCells(t, "data_situacao_cadastral", DateColumn("data_situacao_cadastral"), i);
    UpdateCells(cadastral, "data_inicio_atividade", DateColumn("data_inicio_atividade"), i);
    UpdateCells(inicio, "data_situacao_especial", DateColumn("data_situacao_especial"), i);
  }

  lemma DescribeCells(t: Table, i: nat)
    requires i < |t.rows|
    ensures |Describe(t).rows| == |t.rows|
    ensures var row := t.rows[i];
            var out := Describe(t).rows[i];
      && Get(out, "matriz_filial") == MatrizDescricao(Get(row, "matriz_filial"))
      && Get(out, "situacao_cadastral_descricao") == SituacaoDescricao(Get(row, "situacao_cadastral"))
  {
    var matriz := Update(t, "matriz_filial", CaseColumn("matriz_filial", MatrizCases, None));
    UpdateCells(t, "matriz_filial", CaseColumn("matriz_filial", MatrizCases, None), i);
    DeriveCells(matriz, "situacao_cadastral_descricao", CaseColumn("situacao_cadastral", SituacaoCases, None), i);
  }

  lemma LookUpCells(t: Table, motivos: Table, municipios: Table, i: nat)
    requires i < |t.rows|
    ensures |LookUp(t, motivos, municipios).rows| == |t.rows|
    ensures var row := t.rows[i];
            var out := LookUp(t, motivos, municipios).rows[i];
      && Get(out, "situacao_cadastral_motivo") ==
           Lookup(motivos, "codigo", "motivo", Get(row, "situacao_cadastral_motivo_codigo"))
      && Get(out, "municipio") == Lookup(municipios, "codigo", "municipio", Get(row, "municipio_codigo"))
  {
    var motivo := Derive(t, "situacao_cadastral_motivo",
                         LookupColumn(motivos, "codigo", "motivo", "situacao_cadastral_motivo_codigo"));
    DeriveCells(t, "situacao_cadastral_motivo",
                LookupColumn(motivos, "codigo", "motivo", "situacao_cadastral_motivo_codigo"), i);
    DeriveCells(motivo, "municipio", LookupColumn(municipios, "codigo", "municipio", "municipio_codigo"), i);
  }

  /** The padding leaves every other column of the row as it was. */
  lemma PadKeeps(t: Table, i: nat, c: string)
    requires i < |t.rows| && c != "cnpj_basico" && c != "cnpj_ordem" && c != "cnpj_dv"
    ensures |Pad(t).rows| == |t.rows| && Get(Pad(t).rows[i], c) == Get(t.rows[i], c)
  {
    var basico := Update(t, "cnpj_basico", PadColumn("cnpj_basico", 8));
    var ordem := Update(basico, "cnpj_ordem", PadColumn("cnpj_ordem", 4));
    UpdateCells(t, "cnpj_basico", PadColumn("cnpj_basico", 8), i);
    UpdateCells(basico, "cnpj_ordem", PadColumn("cnpj_ordem", 4), i);
    UpdateCells(ordem, "cnpj_dv", PadColumn("cnpj_dv", 4), i);
  }

  /** Adding `cnpj` leaves every other column of the row as it was. */
  lemma AddCnpjKeeps(t: Table, i: nat, c: string)
    requires i < |t.rows| && c != "cnpj"
    ensures |AddCnpj(t).rows| == |t.rows| && Get(AddCnpj(t).rows[i], c) == Get(t.rows[i], c)
  {
    DeriveCells(t, "cnpj", ConcatColumns("cnpj_basico", "cnpj_ordem", "cnpj_dv"), i);
  }

  /** The date rewrites leave every other column of the row as it was. */
  lemma ReformatDatesKeeps(t: Table, i: nat, c: string)
    requires i < |t.rows|
    requires c != "data_situacao_cadastral" && c != "data_inicio_atividade" && c != "data_situacao_especial"
    ensures |ReformatDates(t).rows| == |t.rows| && Get(ReformatDates(t).rows[i], c) == Get(t.rows[i], c)
  {
    var cadastral := Update(t, "data_situacao_cadastral", DateColumn("data_situacao_cadastral"));
    var inicio := Update(cadastral, "data_inicio_atividade", DateColumn("data_inicio_atividade"));
    UpdateCells(t, "data_situacao_cadastral", DateColumn("data_situacao_cadastral"), i);
    UpdateCells(cadastral, "data_inicio_atividade", DateColumn("data_inicio_atividade"), i);
    UpdateCells(inicio, "data_situacao_especial", DateColumn("data_situacao_especial"), i);
  }

  /** The descriptions leave every other column of the row as it was. */
  lemma DescribeKeeps(t: Table, i: nat, c: string)
    requires i < |t.rows| && c != "matriz_filial" && c != "situacao_cadastral_descricao"
    ensures |Describe(t).rows| == |t.rows| && Get(Describe(t).rows[i], c) == Get(t.rows[i], c)
  {
    var matriz := Update(t, "matriz_filial", CaseColumn("matriz_filial", MatrizCases, None));
    UpdateCells(t, "matriz_filial", CaseColumn("matriz_filial", MatrizCases, None), i);
    DeriveCells(matriz, "situacao_cadastral_descricao", CaseColumn("situacao_cadastral", SituacaoCases, None), i);
  }

  /** The lookups leave every other column of the row as it was. */
  lemma LookUpKeeps(t: Table, motivos: Table, municipios: Table, i: nat, c: string)
    requires i < |t.rows| && c != "situacao_cadastral_motivo" && c != "municipio"
    ensures |LookUp(t, motivos, municipios).rows| == |t.rows|
    ensures Get(LookUp(t, motivos, municipios).rows[i], c) == Get(t.rows[i], c)
  {
    var motivo := Derive(t, "situacao_cadastral_motivo",
                         LookupColumn(motivos, "codigo", "motivo", "situacao_cadastral_motivo_codigo"));
    DeriveCells(t, "situacao_cadastral_motivo",
                LookupColumn(motivos, "codigo", "motivo", "situacao_cadastral_motivo_codigo"), i);
    DeriveCells(motivo, "municipio", LookupColumn(municipios, "codigo", "municipio", "municipio_codigo"), i);
  }

  /** `cnpj` joins the padded parts: base, order, then check digits. */
  lemma CnpjFromPadded(t: Table, i: nat)
    requires i < |t.rows|
    ensures |AddCnpj(Pad(t)).rows| == |t.rows|
    ensures var row := t.rows[i];
      Get(AddCnpj(Pad(t)).rows[i], "cnpj") ==
        Concat(Concat(LPad(Get(row, "cnpj_basico"), 8), LPad(Get(row, "cnpj_ordem"), 4)), LPad(Get(row, "cnpj_dv"), 4))
  {
    PadCells(t, i);
    AddCnpjCells(Pad(t), i);
  }

  /** The statements after the `cnpj` block do not touch the CNPJ columns. */
  lemma CnpjKept(t: Table, motivos: Table, municipios: Table, i: nat, c: string)
    requires i < |t.rows| && c in {"cnpj_basico", "cnpj_ordem", "cnpj_dv", "cnpj"}
    ensures |Transform(t, motivos, municipios).rows| == |t.rows| && |AddCnpj(Pad(t)).rows| == |t.rows|
    ensures Get(Transform(t, motivos, municipios).rows[i], c) == Get(AddCnpj(Pad(t)).rows[i], c)
  {
    var c1 := AddCnpj(Pad(t));
    var d := ReformatDates(c1);
    ReformatDatesKeeps(c1, i, c);
    DescribeKeeps(d, i, c);
    LookUpKeeps(Describe(d), motivos, municipios, i, c);
  }

  /** Columns the transformation does not write are copied unchanged. */
  lemma TransformKeeps(t: Table, motivos: Table, municipios: Table, i: nat, c: string)
    requires i < |t.rows| && c !in Written
    ensures |Transform(t, motivos, municipios).rows| == |t.rows|
    ensures Get(Transform(t, motivos, municipios).rows[i], c) == Get(t.rows[i], c)
  {
    var p := Pad(t);
    var c1 := AddCnpj(p);
    var d := ReformatDates(c1);
    PadKeeps(t, i, c);
    AddCnpjKeeps(p, i, c);
    ReformatDatesKeeps(c1, i, c);
    DescribeKeeps(d, i, c);
    LookUpKeeps(Describe(d), motivos, municipios, i, c);
  }

  /**
   * In the final table the CNPJ parts are padded and `cnpj` joins the padded
   * parts: base, order, then check digits.
   */
  lemma TransformCnpj(t: Table, motivos: Table, municipios: Table, i: nat)
    requires i < |t.rows|
    ensures |Transform(t, motivos, municipios).rows| == |t.rows|
    ensures var row := t.rows[i];
            var out := Transform(t, motivos, municipios).rows[i];
      && Get(out, "cnpj_basico") == LPad(Get(row, "cnpj_basico"), 8)
      && Get(out, "cnpj_ordem") == LPad(Get(row, "cnpj_ordem"), 4)
      && Get(out, "cnpj_dv") == LPad(Get(row, "cnpj_dv"), 4)
      && Get(out, "cnpj") == Concat(Concat(LPad(Get(row, "cnpj_basico"), 8), LPad(Get(row, "cnpj_ordem"), 4)),
                                    LPad(Get(row, "cnpj_dv"), 4))
  {
    PadCells(t, i);
    AddCnpjKeeps(Pad(t), i, "cnpj_basico");
    AddCnpjKeeps(Pad(t), i, "cnpj_ordem");
    AddCnpjKeeps(Pad(t), i, "cnpj_dv");
    CnpjFromPadded(t, i);
    CnpjKept(t, motivos, municipios, i, "cnpj_basico");
    CnpjKept(t, motivos, municipios, i, "cnpj_ordem");
    CnpjKept(t, motivos, municipios, i, "cnpj_dv");
    CnpjKept(t, motivos, municipios, i, "cnpj");
  }

  /**
   * With all three parts present the joined `cnpj` has 8 + 4 + 4 = 16
   * characters (the check digits are padded to 4); with any part NULL it is
   * NULL.
   */
  lemma CnpjWidth(basico: Cell, ordem: Cell, dv: Cell)
    ensures var cnpj := Concat(Concat(LPad(basico, 8), LPad(ordem, 4)), LPad(dv, 4));
      && (cnpj.Some? <==> basico.Some? && ordem.Some? && dv.Some?)
      && (cnpj.Some? ==> |cnpj.value| == 16 && cnpj.value[..8] == LPadText(basico.value, 8)
                         && cnpj.value[12..] == LPadText(dv.value, 4))
  {
    var left := Concat(LPad(basico, 8), LPad(ordem, 4));
    var cnpj := Concat(left, LPad(dv, 4));
    if cnpj.Some? {
      assert |left.value| == 12;
      assert cnpj.value[..12] == left.value;
      assert cnpj.value[..8] == left.value[..8];
    }
  }

  /** The date columns pass untouched through the first two statement groups. */
  lemma DatesReachReformat(t: Table, i: nat, c: string)
    requires i < |t.rows| && c in {"data_situacao_cadastral", "data_inicio_atividade", "data_situacao_especial"}
    ensures |AddCnpj(Pad(t)).rows| == |t.rows|
    ensures Get(AddCnpj(Pad(t)).rows[i], c) == Get(t.rows[i], c)
  {
    PadKeeps(t, i, c);
    AddCnpjKeeps(Pad(t), i, c);
  }

  /** The rewritten dates pass untouched through the last two statement groups. */
  lemma DatesKept(t: Table, motivos: Table, municipios: Table, i: nat, c: string)
    requires i < |t.rows| && c in {"data_situacao_cadastral", "data_inicio_atividade", "data_situacao_especial"}
    ensures |Transform(t, motivos, municipios).rows| == |t.rows| && |ReformatDates(AddCnpj(Pad(t))).rows| == |t.rows|
    ensures Get(Transform(t, motivos, municipios).rows[i], c) == Get(ReformatDates(AddCnpj(Pad(t))).rows[i], c)
  {
    var d := ReformatDates(AddCnpj(Pad(t)));
    DescribeKeeps(d, i, c);
    LookUpKeeps(Describe(d), motivos, municipios, i, c);
  }

  /** In the final table each of the three dates is the positional rewrite of the loaded value. */
  lemma TransformDates(t: Table, motivos: Table, municipios: Table, i: nat)
    requires i < |t.rows|
    ensures |Transform(t, motivos, municipios).rows| == |t.rows|
    ensures var row := t.rows[i];
            var out := Transform(t, motivos, municipios).rows[i];
      && Get(out, "data_situacao_cadastral") == Reformat(Get(row, "data_situacao_cadastral"))
      && Get(out, "data_inicio_atividade") == Reformat(Get(row, "data_inicio_atividade"))
      && Get(out, "data_situacao_especial") == Reformat(Get(row, "data_situacao_especial"))
  {
    ReformatDatesCells(AddCnpj(Pad(t)), i);
    DatesReachReformat(t, i, "data_situacao_cadastral");
    DatesReachReformat(t, i, "data_inicio_atividade");
    DatesReachReformat(t, i, "data_situacao_especial");
    DatesKept(t, motivos, municipios, i, "data_situacao_cadastral");
    DatesKept(t, motivos, municipios, i, "data_inicio_atividade");
    DatesKept(t, motivos, municipios, i, "data_situacao_especial");
  }

  /** The columns the descriptions and lookups read pass untouched through the first three groups. */
  lemma CodesReachDescribe(t: Table, i: nat, c: string)
    requires i < |t.rows|
    requires c in {"matriz_filial", "situacao_cadastral", "situacao_cadastral_motivo_codigo", "municipio_codigo"}
    ensures |ReformatDates(AddCnpj(Pad(t))).rows| == |t.rows|
    ensures Get(ReformatDates(AddCnpj(Pad(t))).rows[i], c) == Get(t.rows[i], c)
  {
    PadKeeps(t, i, c);
    AddCnpjKeeps(Pad(t), i, c);
    ReformatDatesKeeps(AddCnpj(Pad(t)), i, c);
  }

  /**
   * In the final table the flag and the status are described by their
   * dictionaries, and the status reason and the municipality are looked up
   * by the loaded codes.
   */
  lemma TransformDescriptions(t: Table, motivos: Table, municipios: Table, i: nat)
    requires i < |t.rows|
    ensures |Transform(t, motivos, municipios).rows| == |t.rows|
    ensures var row := t.rows[i];
            var out := Transform(t, motivos, municipios).rows[i];
      && Get(out, "matriz_filial") == MatrizDescricao(Get(row, "matriz_filial"))
      && Get(out, "situacao_cadastral_descricao") == SituacaoDescricao(Get(row, "situacao_cadastral"))
      && Get(out, "situacao_cadastral_motivo") ==
           Lookup(motivos, "codigo", "motivo", Get(row, "situacao_cadastral_motivo_codigo"))
      && Get(out, "municipio") == Lookup(municipios, "codigo", "municipio", Get(row, "municipio_codigo"))
  {
    var d := ReformatDates(AddCnpj(Pad(t)));
    CodesReachDescribe(t, i, "matriz_filial");
    CodesReachDescribe(t, i, "situacao_cadastral");
    CodesReachDescribe(t, i, "situacao_cadastral_motivo_codigo");
    CodesReachDescribe(t, i, "municipio_codigo");
    DescribeCells(d, i);
    DescribeKeeps(d, i, "situacao_cadastral_motivo_codigo");
    DescribeKeeps(d, i, "municipio_codigo");
    LookUpCells(Describe(d), motivos, municipios, i);
    LookUpKeeps(Describe(d), motivos, municipios, i, "matriz_filial");
    LookUpKeeps(Describe(d), motivos, municipios, i, "situacao_cadastral_descricao");
  }

  // ----- the columns -----

  /** The derived columns are appended in statement order; no row is added or removed. */
  lemma TransformShape(t: Table, motivos: Table, municipios: Table)
    requires "cnpj" !in t.columns && "situacao_cadastral_descricao" !in t.columns
    requires "situacao_cadastral_motivo" !in t.columns && "municipio" !in t.columns
    ensures Transform(t, motivos, municipios).columns ==
              t.columns + ["cnpj"] + ["situacao_cadastral_descricao"] + ["situacao_cadastral_motivo"] + ["municipio"]
    ensures |Transform(t, motivos, municipios).rows| == |t.rows|
  {
    DerivedNamesDistinct();
    var c1 := t.columns + ["cnpj"];
    var c2 := c1 + ["situacao_cadastral_descricao"];
    var p := Pad(t);
    DeriveFresh(p, "cnpj", ConcatColumns("cnpj_basico", "cnpj_ordem", "cnpj_dv"));
    var d := ReformatDates(AddCnpj(p));
    DescribeShape(d);
    LookUpShape(Describe(d), motivos, municipios);
  }

  /** The four derived column names are distinct. */
  lemma DerivedNamesDistinct()
    ensures "cnpj" != "situacao_cadastral_descricao" && "cnpj" != "situacao_cadastral_motivo" && "cnpj" != "municipio"
    ensures "situacao_cadastral_descricao" != "situacao_cadastral_motivo" && "situacao_cadastral_descricao" != "municipio"
    ensures "situacao_cadastral_motivo" != "municipio"
  {
  }

  /** The status description is appended. */
  lemma DescribeShape(t: Table)
    requires "situacao_cadastral_descricao" !in t.columns
    ensures Describe(t).columns == t.columns + ["situacao_cadastral_descricao"]
  {
    var matriz := Update(t, "matriz_filial", CaseColumn("matriz_filial", MatrizCases, None));
    DeriveFresh(matriz, "situacao_cadastral_descricao", CaseColumn("situacao_cadastral", SituacaoCases, None));
  }

  /** The status reason, then the municipality, are appended. */
  lemma LookUpShape(t: Table, motivos: Table, municipios: Table)
    requires "situacao_cadastral_motivo" !in t.columns && "municipio" !in t.columns
    ensures LookUp(t, motivos, municipios).columns == t.columns + ["situacao_cadastral_motivo"] + ["municipio"]
  {
    DerivedNamesDistinct();
    DeriveFresh(t, "situacao_cadastral_motivo",
                LookupColumn(motivos, "codigo", "motivo", "situacao_cadastral_motivo_codigo"));
    var motivo := Derive(t, "situacao_cadastral_motivo",
                         LookupColumn(motivos, "codigo", "motivo", "situacao_cadastral_motivo_codigo"));
    DeriveFresh(motivo, "municipio", LookupColumn(municipios, "codigo", "municipio", "municipio_codigo"));
  }

  /** The transformation keeps a well-formed table well formed. */
  lemma TransformWellFormed(t: Table, motivos: Table, municipios: Table)
    requires WellFormed(t) && UpdatedPresent(t.columns)
    ensures WellFormed(Transform(t, motivos, municipios))
  {
    var basico := Update(t, "cnpj_basico", PadColumn("cnpj_basico", 8));
    var ordem := Update(basico, "cnpj_ordem", PadColumn("cnpj_ordem", 4));
    UpdateWellFormed(t, "cnpj_basico", PadColumn("cnpj_basico", 8));
    UpdateWellFormed(basico, "cnpj_ordem", PadColumn("cnpj_ordem", 4));
    UpdateWellFormed(ordem, "cnpj_dv", PadColumn("cnpj_dv", 4));
    var p := Pad(t);
    DeriveWellFormed(p, "cnpj", ConcatColumns("cnpj_basico", "cnpj_ordem", "cnpj_dv"));
    var c := AddCnpj(p);
    assert UpdatedPresent(c.columns) by { UpdatedPresentAfter(p.columns, "cnpj"); }
    var cadastral := Update(c, "data_situacao_cadastral", DateColumn("data_situacao_cadastral"));
    var inicio := Update(cadastral, "data_inicio_atividade", DateColumn("data_inicio_atividade"));
    UpdateWellFormed(c, "data_situacao_cadastral", DateColumn("data_situacao_cadastral"));
    UpdateWellFormed(cadastral, "data_inicio_atividade", DateColumn("data_inicio_atividade"));
    UpdateWellFormed(inicio, "data_situacao_especial", DateColumn("data_situacao_especial"));
    var d := ReformatDates(c);
    var matriz := Update(d, "matriz_filial", CaseColumn("matriz_filial", MatrizCases, None));
    UpdateWellFormed(d, "matriz_filial", CaseColumn("matriz_filial", MatrizCases, None));
    DeriveWellFormed(matriz, "situacao_cadastral_descricao", CaseColumn("situacao_cadastral", SituacaoCases, None));
    var e := Describe(d);
    var motivo := Derive(e, "situacao_cadastral_motivo",
                         LookupColumn(motivos, "codigo", "motivo", "situacao_cadastral_motivo_codigo"));
    DeriveWellFormed(e, "situacao_cadastral_motivo",
                     LookupColumn(motivos, "codigo", "motivo", "situacao_cadastral_motivo_codigo"));
    DeriveWellFormed(motivo, "municipio", LookupColumn(municipios, "codigo", "municipio", "municipio_codigo"));
  }

  /** The columns the UPDATE statements rewrite in place are all present. */
  predicate UpdatedPresent(cols: seq<string>)
  {
    && "cnpj_basico" in cols && "cnpj_ordem" in cols && "cnpj_dv" in cols
    && "data_situacao_cadastral" in cols && "data_inicio_atividade" in cols && "data_situacao_especial" in cols
    && "matriz_filial" in cols
  }

  /** Deriving a column none of them is named keeps them present. */
  lemma UpdatedPresentAfter(cols: seq<string>, col: string)
    requires UpdatedPresent(cols) && col == "cnpj"
    ensures UpdatedPresent(Without(cols, col) + [col])
  {
  }

  /** The columns the loader produces for this schema. */
  function LoadedColumns(): seq<string>
  {
    Without(Names(EstabelecimentosSchema), SafraColumn) + [SafraColumn]
  }

  /** The file has no `safra` column, so the loader appends it after the thirty. */
  lemma LoadedColumnsOrder()
    ensures LoadedColumns() == EstabelecimentosColumns + [SafraColumn]
  {
    assert SafraColumn !in EstabelecimentosColumns;
  }

  /** The loaded table has every column the UPDATE statements rewrite. */
  lemma LoadedColumnsPresent()
    ensures UpdatedPresent(LoadedColumns())
  {
    LoadedColumnsOrder();
    LoadedCnpjParts();
    LoadedDates();
  }

  lemma LoadedCnpjParts()
    ensures var cols := EstabelecimentosColumns;
      "cnpj_basico" in cols && "cnpj_ordem" in cols && "cnpj_dv" in cols && "matriz_filial" in cols
  {
  }

  lemma LoadedDates()
    ensures var cols := EstabelecimentosColumns;
      "data_situacao_cadastral" in cols && "data_inicio_atividade" in cols && "data_situacao_especial" in cols
  {
  }

  /** The loaded table has none of the derived columns. */
  lemma LoadedColumnsFresh()
    ensures "cnpj" !in LoadedColumns() && "situacao_cadastral_descricao" !in LoadedColumns()
    ensures "situacao_cadastral_motivo" !in LoadedColumns() && "municipio" !in LoadedColumns()
  {
    LoadedColumnsOrder();
    NotLoaded("cnpj");
    NotLoaded("situacao_cadastral_descricao");
    NotLoaded("situacao_cadastral_motivo");
    NotLoaded("municipio");
  }

  lemma NotLoaded(x: string)
    requires x in {"cnpj", "situacao_cadastral_descricao", "situacao_cadastral_motivo", "municipio"}
    ensures x !in EstabelecimentosColumns + [SafraColumn]
  {
  }

  // ----- the statements against the database -----

  /** The three LPAD updates. */
  method PadEstabelecimentos(db: Store)
    requires Estabelecimentos in db.catalog && UpdatedPresent(db.catalog[Estabelecimentos].columns)
    modifies db
    ensures db.catalog == old(db.catalog)[Estabelecimentos := Pad(old(db.catalog)[Estabelecimentos])]
  {
    ghost var before := db.catalog;
    ghost var t := before[Estabelecimentos];
    db.Update(Estabelecimentos, "cnpj_basico", PadColumn("cnpj_basico", 8));
    ghost var basico := Update(t, "cnpj_basico", PadColumn("cnpj_basico", 8));
    db.Update(Estabelecimentos, "cnpj_ordem", PadColumn("cnpj_ordem", 4));
    ghost var ordem := Update(basico, "cnpj_ordem", PadColumn("cnpj_ordem", 4));
    StoreTwice(before, Estabelecimentos, basico, ordem);
    db.Update(Estabelecimentos, "cnpj_dv", PadColumn("cnpj_dv", 4));
    StoreTwice(before, Estabelecimentos, ordem, Pad(t));
  }

  /** The three positional date rewrites. */
  method ReformatDatesEstabelecimentos(db: Store)
    requires Estabelecimentos in db.catalog && UpdatedPresent(db.catalog[Estabelecimentos].columns)
    modifies db
    ensures db.catalog == old(db.catalog)[Estabelecimentos := ReformatDates(old(db.catalog)[Estabelecimentos])]
  {
    ghost var before := db.catalog;
    ghost var t := before[Estabelecimentos];
    db.Update(Estabelecimentos, "data_situacao_cadastral", DateColumn("data_situacao_cadastral"));
    ghost var cadastral := Update(t, "data_situacao_cadastral", DateColumn("data_situacao_cadastral"));
    db.Update(Estabelecimentos, "data_inicio_atividade", DateColumn("data_inicio_atividade"));
    ghost var inicio := Update(cadastral, "data_inicio_atividade", DateColumn("data_inicio_atividade"));
    StoreTwice(before, Estabelecimentos, cadastral, inicio);
    db.Update(Estabelecimentos, "data_situacao_especial", DateColumn("data_situacao_especial"));
    StoreTwice(before, Estabelecimentos, inicio, ReformatDates(t));
  }

  /** The head-office flag in place, then the status description. */
  method DescribeEstabelecimentos(db: Store)
    requires Estabelecimentos in db.catalog && "matriz_filial" in db.catalog[Estabelecimentos].columns
    modifies db
    ensures db.catalog == old(db.catalog)[Estabelecimentos := Describe(old(db.catalog)[Estabelecimentos])]
  {
    ghost var before := db.catalog;
    db.Update(Estabelecimentos, "matriz_filial", CaseColumn("matriz_filial", MatrizCases, None));
    ghost var matriz := Update(before[Estabelecimentos], "matriz_filial", CaseColumn("matriz_filial", MatrizCases, None));
    db.DeriveColumn(Estabelecimentos, "situacao_cadastral_descricao", CaseColumn("situacao_cadastral", SituacaoCases, None));
    StoreTwice(before, Estabelecimentos, matriz, Describe(before[Estabelecimentos]));
  }

  /** The two lookups, each reading its reference table as it stands. */
  method LookUpEstabelecimentos(db: Store)
    requires Estabelecimentos in db.catalog && Motivos in db.catalog && Municipios in db.catalog
    modifies db
    ensures db.catalog == old(db.catalog)[Estabelecimentos := LookUp(old(db.catalog)[Estabelecimentos],
                                                                     old(db.catalog)[Motivos],
                                                                     old(db.catalog)[Municipios])]
  {
    ghost var before := db.catalog;
    assert Estabelecimentos != Motivos && Estabelecimentos != Municipios;
    db.DeriveColumn(Estabelecimentos, "situacao_cadastral_motivo",
                    LookupColumn(db.catalog[Motivos], "codigo", "motivo", "situacao_cadastral_motivo_codigo"));
    ghost var motivo := Derive(before[Estabelecimentos], "situacao_cadastral_motivo",
                               LookupColumn(before[Motivos], "codigo", "motivo", "situacao_cadastral_motivo_codigo"));
    db.DeriveColumn(Estabelecimentos, "municipio",
                    LookupColumn(db.catalog[Municipios], "codigo", "municipio", "municipio_codigo"));
    StoreTwice(before, Estabelecimentos, motivo, LookUp(before[Estabelecimentos], before[Motivos], before[Municipios]));
  }

  /** The padding, then the joined `cnpj` column. */
  method AddCnpjEstabelecimentos(db: Store)
    requires Estabelecimentos in db.catalog && UpdatedPresent(db.catalog[Estabelecimentos].columns)
    modifies db
    ensures db.catalog == old(db.catalog)[Estabelecimentos := AddCnpj(Pad(old(db.catalog)[Estabelecimentos]))]
    ensures UpdatedPresent(db.catalog[Estabelecimentos].columns)
  {
    ghost var before := db.catalog;
    PadEstabelecimentos(db);
    ghost var p := Pad(before[Estabelecimentos]);
    db.DeriveColumn(Estabelecimentos, "cnpj", ConcatColumns("cnpj_basico", "cnpj_ordem", "cnpj_dv"));
    StoreTwice(before, Estabelecimentos, p, AddCnpj(p));
    UpdatedPresentAfter(p.columns, "cnpj");
  }

  /**
   * The transformation statements of processar_estabelecimentos against the
   * database; the result is the final SELECT COUNT(*).
   */
  method TransformEstabelecimentos(db: Store) returns (n: nat)
    requires Estabelecimentos in db.catalog && Motivos in db.catalog && Municipios in db.catalog
    requires UpdatedPresent(db.catalog[Estabelecimentos].columns)
    modifies db
    ensures db.catalog == old(db.catalog)[Estabelecimentos := Transform(old(db.catalog)[Estabelecimentos],
                                                                        old(db.catalog)[Motivos],
                                                                        old(db.catalog)[Municipios])]
    ensures n == |old(db.catalog)[Estabelecimentos].rows|
  {
    ghost var before := db.catalog;
    assert Estabelecimentos != Motivos && Estabelecimentos != Municipios;
    AddCnpjEstabelecimentos(db);
    ghost var c := AddCnpj(Pad(before[Estabelecimentos]));
    ReformatDatesEstabelecimentos(db);
    ghost var d := ReformatDates(c);
    StoreTwice(before, Estabelecimentos, c, d);
    DescribeEstabelecimentos(db);
    StoreTwice(before, Estabelecimentos, d, Describe(d));
    LookUpEstabelecimentos(db);
    StoreTwice(before, Estabelecimentos, Describe(d), LookUp(Describe(d), before[Motivos], before[Municipios]));
    n := db.Count(Estabelecimentos);
  }

  /**
   * processar_estabelecimentos: a failing load propagates its error with the
   * catalog the loader left; otherwise the establishment table is
   * transformed in place, reading the reference tables the loader ensured,
   * and its row count is returned.
   */
  method ProcessarEstabelecimentos(db: Store, raw: string, safra: string, read: Reader) returns (r: Result<nat, LoadError>)
    modifies db
    ensures var (loaded, o) := LoadResult(old(db.catalog), EstabelecimentosPath(raw, safra), EstabelecimentosSchema,
                                          Estabelecimentos, safra, ";", false, raw, read);
      && (o.Fail? ==> r == Err(o.error) && db.catalog == loaded)
      && (o.Pass? ==>
            && db.catalog == loaded[Estabelecimentos := Transform(loaded[Estabelecimentos], loaded[Motivos], loaded[Municipios])]
            && r == Ok(|loaded[Estabelecimentos].rows|))
  {
    var o := LoadDataToDuckdb(db, EstabelecimentosPath(raw, safra), EstabelecimentosSchema, Estabelecimentos,
                              safra, ";", false, raw, read);
    if o.Fail? {
      r := Err(o.error);
      return;
    }
    assert UpdatedPresent(db.catalog[Estabelecimentos].columns) by {
      LoadedColumnsPresent();
    }
    assert Motivos in ReferenceNames && Municipios in ReferenceNames;
    var n := TransformEstabelecimentos(db);
    r := Ok(n);
  }
}
