/** Fixed names shared by the loader, the transformers and the exporter. */
module Settings {
  const FolderUnzip: string := "unzip"
  const FolderUnload: string := "unload"

  const Empresas: string := "empresas"
  const Estabelecimentos: string := "estabelecimentos"
  const Simples: string := "simples"
  const Socios: string := "socios"
  const RegimeTributario: string := "regime_tributario"

  /** The loader's staging table. */
  const TempTable: string := "temp_table"

  /** The period column appended to every typed table. */
  const SafraColumn: string := "safra"

  const QualificacoesSocios: string := "qualificacoes_socios"
  const Pais: string := "pais"
  const NaturezasJuridicas: string := "naturezas_juridicas"
  const Municipios: string := "municipios"
  const Motivos: string := "motivos"
  const Cnaes: string := "cnaes"

  /** os.path.join of relative components: the parts separated by '/'. */
  function Join(parts: seq<string>): (p: string)
  {
    if parts == [] then ""
    else if |parts| == 1 then parts[0]
    else Join(parts[..|parts| - 1]) + "/" + parts[|parts| - 1]
  }
}
