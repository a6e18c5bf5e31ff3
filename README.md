# Receita Federal CNPJ open data: the DuckDB normalisation pipeline

This project models the batch core of `dados_publicos_cnpj_receita_federal`. That program loads the
public CNPJ files of the Brazilian tax authority for one *safra* (monthly release) into DuckDB. It
normalises their columns, joins them to the small reference tables and exports the result to
Parquet in chunks.

The model covers four parts of the program:

* **The loader** (`Core`). `load_data_to_duckdb` stages the CSV files in `temp_table`. It then
  rebuilds the destination table from one select expression per column: DOUBLE turns the decimal
  comma into a point, INTEGER drops grouping commas and casts to a 32-bit integer, and any other
  type keeps the text. It stamps every row with the `safra` column, drops the staging table and
  runs `process_mapping`. `process_mapping` creates each of the six reference tables that
  `check_table_exists` reports missing: `qualificacoes_socios`, `pais`, `naturezas_juridicas`,
  `municipios`, `motivos` and `cnaes`.
* **The transformers**. `processar_empresas`, `processar_estabelecimentos`, `processar_socios`,
  `processar_simples` and `processar_regime_tributario` each load their files and then run a fixed
  series of `UPDATE`/`ALTER TABLE` statements:
  * LPAD of the CNPJ parts;
  * CASE tables that turn codes into descriptions;
  * SUBSTR-based date reformatting, some of it guarded by the sentinel `00000000`;
  * scalar subqueries against the reference tables;
  * for the tax regimes, a UNION ALL of four parts followed by the removal of `.`, `/` and `-`
    from `cnpj`.
* **The exporter** (`Unload`). `unload_safra` walks a fixed list of six tables. It makes the
  `format_parquet/<table>` folders and copies each table in `LIMIT chunk_size OFFSET k*chunk_size`
  slices to `<table>_<k>.parquet`.
* **The SQL pieces** they share: value functions on cells and tables (`SqlText`, `Tables`,
  `Exprs`), the database as a `Db.Store` object whose catalogue each statement updates, and the
  disk as an `Unload.Disk` object.

Each database operation is a method on the store. Its `ensures` equates the new catalogue with a
value function of the old one (`LoadResult`, `Mapping`, `Transform`, `Combine`, `ExportTable`, ...).
Lemmas state what those functions promise: cell by cell, column by column, and for the tables left
untouched.

The CSV reader is a parameter `read: CsvRequest -> ReadResult`. A request names the path or glob,
the separator, the header flag and the column names. The reader returns the staged table, an
I/O error or another reader error. The program's folder (`PATH_FOLDER_RAW`) is the parameter
`raw`. Every `processar_*` method returns `Ok(n)` with the row count its log line reports, or the
error that the source would raise.

Where the code and its own messages disagree, the model follows the code:

* `processar_estabelecimentos` logs "cnpj_dv para 2 caracteres" but pads `cnpj_dv` to 4.
  `EstabelecimentosEngine.CnpjWidth` therefore proves a 16-character `cnpj`.
* The number of "rounds" that `unload_safra` logs is not the number of files it writes.
  `Unload.RoundsVersusFiles` bounds the difference.

## Model

| member | source | states |
|---|---|---|
| Core.CastInteger | dados_publicos_cnpj_receita_federal/engine/_core.py:93-94 | the INTEGER cast succeeds exactly when the text with its commas removed parses as an integer in the 32-bit range, and then gives that integer |
| Core.CastIntegerGrouped | dados_publicos_cnpj_receita_federal/engine/_core.py:94 | a grouped number such as "1,234" casts to 1234 |
| Core.CastIntegerRender | dados_publicos_cnpj_receita_federal/engine/_core.py:93-94 | round trip: the decimal text of every 32-bit integer casts back to that integer |
| Core.ProjectionFor | dados_publicos_cnpj_receita_federal/engine/_core.py:90-96 | DOUBLE picks the comma-to-point expression, INTEGER the comma-free integer cast, every other type the VARCHAR cast; the column name is kept |
| Core.Selection | dados_publicos_cnpj_receita_federal/engine/_core.py:89-98 | the select list names exactly the declared columns, in declaration order, so the new table has the dictionary's columns |
| Core.SelectStatements | dados_publicos_cnpj_receita_federal/engine/_core.py:89-96 | the loop builds, position by position, the expression whose kind matches the declared type of that column |
| Core.Project | dados_publicos_cnpj_receita_federal/engine/_core.py:91-96 | NULL stays NULL; VARCHAR keeps the text; DOUBLE keeps the text with every decimal comma turned into a point; an INTEGER cast fails exactly when the comma-free text is not a 32-bit integer, and otherwise stores its canonical text |
| Core.ProjectRowDefined | dados_publicos_cnpj_receita_federal/engine/_core.py:107-110 | a staged row can be inserted exactly when every one of its casts succeeds |
| Core.ProjectRowKeys | dados_publicos_cnpj_receita_federal/engine/_core.py:104-110 | an inserted row has exactly the declared columns |
| Core.ProjectRowValues | dados_publicos_cnpj_receita_federal/engine/_core.py:107-110 | each column of an inserted row holds the result of its own select expression on the staged cell |
| Core.ProjectRowsSpec | dados_publicos_cnpj_receita_federal/engine/_core.py:107-110 | INSERT ... SELECT succeeds exactly when every staged row converts; it then keeps the row count and the row order |
| Core.TypedLoad | dados_publicos_cnpj_receita_federal/engine/_core.py:62-122 | an I/O error becomes the "check that the safra exists" failure; another reader error propagates; a cast error is a conversion failure; a success keeps the staged row count and ends the columns with `safra` |
| Core.TypedLoadSpec | dados_publicos_cnpj_receita_federal/engine/_core.py:88-122 | the load succeeds exactly when every cell converts; the table is then well formed, every row's `safra` is the argument, and every other column holds its converted staged value |
| Core.TypedLoadColumns | dados_publicos_cnpj_receita_federal/engine/_core.py:104-118 | when `safra` is not a declared column, the loaded columns are the declared ones followed by `safra` |
| Core.TypedLoadCells | dados_publicos_cnpj_receita_federal/engine/_core.py:91-96 | per cell: VARCHAR is unchanged, INTEGER is the canonical text of its successful cast, NULL stays NULL |
| Core.MappingSpec | dados_publicos_cnpj_receita_federal/engine/_core.py:130-269 | only the listed reference tables can appear; an existing table is never replaced; a created one is what its read produced; the step passes exactly when every absent table reads, and then all are present; a failure names an absent table whose read failed |
| Core.MappingIdempotent | dados_publicos_cnpj_receita_federal/engine/_core.py:152-269 | running process_mapping again after a successful run changes nothing and passes |
| Core.MappingPresent | dados_publicos_cnpj_receita_federal/engine/_core.py:153-253 | when every reference table already exists nothing is read and nothing changes |
| Core.CheckTableExists | dados_publicos_cnpj_receita_federal/engine/_core.py:272-291 | true exactly when the table is in the catalogue |
| Core.EnsureReference | dados_publicos_cnpj_receita_federal/engine/_core.py:153-171 | one `if not check_table_exists` block: keeps a present table, creates an absent one from its read, raises when that read fails |
| Core.ProcessMapping | dados_publicos_cnpj_receita_federal/engine/_core.py:130-269 | the six blocks in source order, stopping at the first that raises, give exactly the catalogue and outcome of the Mapping specification |
| Core.RebuildDestination | dados_publicos_cnpj_receita_federal/engine/_core.py:100-112 | the destination is recreated with the declared columns; it holds the converted staged rows when every row converts, and is left empty otherwise |
| Core.LoadStaged | dados_publicos_cnpj_receita_federal/engine/_core.py:100-127 | a conversion failure leaves the staging table and an empty destination; otherwise the catalogue is the Mapping run over the stamped destination |
| Core.FinishLoad | dados_publicos_cnpj_receita_federal/engine/_core.py:114-127 | the destination's `safra` column is replaced and filled, the staging table is dropped, then process_mapping runs |
| Core.LoadResult | dados_publicos_cnpj_receita_federal/engine/_core.py:14-127 | a load that passes leaves the typed load of the files in the destination and all six reference tables present |
| Core.LoadDataToDuckdb | dados_publicos_cnpj_receita_federal/engine/_core.py:14-127 | the statement sequence leaves exactly the catalogue and outcome of the LoadResult specification |
| Core.ReferenceNamesDistinct | dados_publicos_cnpj_receita_federal/engine/_core.py:153-253 | the six reference tables are distinct and none is `temp_table` |
| Core.LoadFailure | dados_publicos_cnpj_receita_federal/engine/_core.py:65-112 | an I/O error or another reader error drops only `temp_table`; a conversion failure leaves the staging table and an empty destination, and some staged cell failed its cast |
| Core.LoadSuccess | dados_publicos_cnpj_receita_federal/engine/_core.py:14-127 | after a successful typed load the destination holds it, `temp_table` is gone, every other existing table is unchanged, and only reference tables can have been added |
| Core.LoadRepeatable | dados_publicos_cnpj_receita_federal/engine/_core.py:14-127 | loading the same files twice leaves the same destination table as loading them once |
| Decimal.ParseRender | dados_publicos_cnpj_receita_federal/engine/_core.py:94 | round trip: parsing the decimal text of an integer gives the integer back |
| Decimal.RenderInjective | dados_publicos_cnpj_receita_federal/engine/_core.py:94 | distinct integers have distinct decimal texts |
| Db.Store.DropTableIfExists | dados_publicos_cnpj_receita_federal/engine/_core.py:69 | removes the named table when present and changes nothing else |
| Db.Store.DropTable | dados_publicos_cnpj_receita_federal/engine/regime_tributario.py:78-81 | removes an existing table and changes nothing else |
| Db.Store.CreateTable | dados_publicos_cnpj_receita_federal/engine/_core.py:104-106 | adds a new table under a fresh name and changes nothing else |
| Db.Store.Insert | dados_publicos_cnpj_receita_federal/engine/_core.py:107-110 | appends rows after the existing ones and keeps the columns |
| Db.Store.AddColumn | dados_publicos_cnpj_receita_federal/engine/_core.py:118 | appends a fresh NULL column to one table |
| Db.Store.DropColumnIfExists | dados_publicos_cnpj_receita_federal/engine/_core.py:117 | removes the column from one table when present |
| Db.Store.Update | dados_publicos_cnpj_receita_federal/engine/_core.py:119-120 | sets one existing column of every row of one table to a function of that row |
| Db.Store.DeriveColumn | dados_publicos_cnpj_receita_federal/engine/estabelecimentos.py:179-185 | the DROP COLUMN IF EXISTS / ADD COLUMN / UPDATE triple: the column is recreated at the end and filled from the row |
| Db.Store.Count | dados_publicos_cnpj_receita_federal/engine/estabelecimentos.py:220 | `SELECT COUNT(*)` is the number of rows of the table |
| Tables.Without | dados_publicos_cnpj_receita_federal/engine/_core.py:117 | removes exactly the given column name from a column list, keeps a list without it unchanged, and keeps names distinct |
| Tables.UpdateCells | dados_publicos_cnpj_receita_federal/engine/_core.py:119-120 | after UPDATE the target column holds the expression's value on the old row, and every other column is unchanged |
| Tables.AddColumnCells | dados_publicos_cnpj_receita_federal/engine/_core.py:118 | a new column reads NULL and the other columns are unchanged |
| Tables.DropColumnCells | dados_publicos_cnpj_receita_federal/engine/_core.py:117 | a dropped column reads NULL and the other columns are unchanged |
| Tables.UpdateWellFormed | dados_publicos_cnpj_receita_federal/engine/_core.py:119-120 | UPDATE of an existing column keeps every row's keys equal to the table's distinct columns |
| Tables.AddColumnWellFormed | dados_publicos_cnpj_receita_federal/engine/_core.py:118 | ADD COLUMN of a fresh name keeps the table well formed |
| Tables.DropColumnWellFormed | dados_publicos_cnpj_receita_federal/engine/_core.py:117 | DROP COLUMN keeps the table well formed |
| Tables.DropColumnAbsent | dados_publicos_cnpj_receita_federal/engine/_core.py:117 | DROP COLUMN IF EXISTS of a missing column leaves the table as it was |
| Tables.Derive | dados_publicos_cnpj_receita_federal/engine/estabelecimentos.py:179-185 | the recreated column is the last column and the row count is kept |
| Tables.DeriveCells | dados_publicos_cnpj_receita_federal/engine/estabelecimentos.py:179-185 | the derived column holds the expression evaluated on the row with that column cleared; the other columns are unchanged |
| Tables.DeriveFresh | dados_publicos_cnpj_receita_federal/engine/estabelecimentos.py:179-180 | deriving a column the table lacks appends it to the existing columns |
| Tables.DeriveWellFormed | dados_publicos_cnpj_receita_federal/engine/estabelecimentos.py:179-185 | the triple keeps the table well formed |
| Tables.UnionAll | dados_publicos_cnpj_receita_federal/engine/regime_tributario.py:70-77 | UNION ALL of tables with the same columns: the first table's rows, then the second's, and well formedness is kept |
| Tables.LookupRows | dados_publicos_cnpj_receita_federal/engine/estabelecimentos.py:196-200 | the subquery gives NULL when no reference row has the code, otherwise the description of the first row that has it, and only a description found in a row with that code |
| Tables.Lookup | dados_publicos_cnpj_receita_federal/engine/estabelecimentos.py:196-200 | a NULL code finds nothing; any description found comes from a reference row with that code |
| Tables.LookupUnique | dados_publicos_cnpj_receita_federal/engine/estabelecimentos.py:196-200 | with unique codes the lookup returns the description of the row holding the code, and NULL when no row holds it |
| SqlText.LPadText | dados_publicos_cnpj_receita_federal/engine/estabelecimentos.py:84 | LPAD to width w: exactly w characters; shorter text ends the result after leading '0's; longer text is cut to its first w characters |
| SqlText.LPad | dados_publicos_cnpj_receita_federal/engine/estabelecimentos.py:84 | NULL stays NULL, and text becomes exactly w characters |
| SqlText.LPadIdempotent | dados_publicos_cnpj_receita_federal/engine/estabelecimentos.py:84 | padding an already padded cell changes nothing |
| SqlText.LPadKeepsExactWidth | dados_publicos_cnpj_receita_federal/engine/estabelecimentos.py:84 | text of exactly the width is kept |
| SqlText.Substr | dados_publicos_cnpj_receita_federal/engine/estabelecimentos.py:122-124 | 1-based SUBSTR returns at most len characters, and the exact slice when it fits |
| SqlText.DateTextShape | dados_publicos_cnpj_receita_federal/engine/estabelecimentos.py:122-124 | an 8-character YYYYMMDD becomes a 10-character YYYY-MM-DD whose dashes removed give the original back |
| SqlText.DateTextKeepsZeros | dados_publicos_cnpj_receita_federal/engine/estabelecimentos.py:122-124 | the unguarded reformat turns the sentinel 00000000 into 0000-00-00 rather than NULL |
| SqlText.DateTextNotIdempotent | dados_publicos_cnpj_receita_federal/engine/estabelecimentos.py:122-124 | reformatting a date a second time garbles it |
| SqlText.Reformat | dados_publicos_cnpj_receita_federal/engine/estabelecimentos.py:122-124 | the unguarded reformat is NULL exactly for a NULL date |
| SqlText.GuardedDate | dados_publicos_cnpj_receita_federal/engine/socios.py:105-111 | NULL exactly for NULL and for 00000000; any other 8-character date becomes a YYYY-MM-DD that undashes back to it |
| SqlText.Concat | dados_publicos_cnpj_receita_federal/engine/estabelecimentos.py:113 | `||` is NULL when either side is NULL, and otherwise the left text followed by the right text |
| SqlText.CaseWhen | dados_publicos_cnpj_receita_federal/engine/estabelecimentos.py:160-163 | CASE gives the value of the first WHEN that matches, and the ELSE value when none matches |
| SqlText.CaseWhenKeys | dados_publicos_cnpj_receita_federal/engine/estabelecimentos.py:155 | with distinct keys every listed code maps to its own description |
| SqlText.Replace | dados_publicos_cnpj_receita_federal/engine/_core.py:92 | REPLACE keeps NULL as NULL and text as text |
| SqlText.WithoutChars | dados_publicos_cnpj_receita_federal/engine/regime_tributario.py:89 | the result holds none of the removed characters, only characters of the input, and is no longer than the input |
| SqlText.WithoutCharsNoop | dados_publicos_cnpj_receita_federal/engine/regime_tributario.py:89 | text without any of the characters is unchanged |
| SqlText.RemoveCharIsFilter | dados_publicos_cnpj_receita_federal/engine/regime_tributario.py:89 | REPLACE(s, c, '') removes exactly the occurrences of c |
| SqlText.WithoutCharsCompose | dados_publicos_cnpj_receita_federal/engine/regime_tributario.py:89 | nested removals equal one removal of the union of the characters |
| SqlText.WithoutCharsAppend | dados_publicos_cnpj_receita_federal/engine/regime_tributario.py:89 | removal distributes over concatenation |
| SqlText.StripIsFilter | dados_publicos_cnpj_receita_federal/engine/regime_tributario.py:89 | the three nested REPLACEs remove exactly `.`, `/` and `-`, keeping NULL |
| SqlText.StripLeavesNoPunctuation | dados_publicos_cnpj_receita_federal/engine/regime_tributario.py:89 | the cleaned text has no `.`, `/` or `-`, and clean text is left as it is |
| SqlText.StripIdempotent | dados_publicos_cnpj_receita_federal/engine/regime_tributario.py:89 | cleaning twice equals cleaning once |
| EmpresasEngine.PorteDescricaoCodes | dados_publicos_cnpj_receita_federal/engine/empresas.py:65-81 | each description appears exactly for its code 01, 02, 03 or 05, and any other code (or NULL) gives NULL |
| EmpresasEngine.DescribeCells | dados_publicos_cnpj_receita_federal/engine/empresas.py:55-83 | `cnpj_basico` is padded to 8, `porte_desc` describes `porte`, and every other column is unchanged |
| EmpresasEngine.LookUpCells | dados_publicos_cnpj_receita_federal/engine/empresas.py:85-113 | `natureza_juridica` and `qualificacao_responsavel` are looked up by their codes in their reference tables; every other column is unchanged |
| EmpresasEngine.TransformCells | dados_publicos_cnpj_receita_federal/engine/empresas.py:54-113 | the four written columns of each final row, stated in terms of the loaded row |
| EmpresasEngine.TransformKeeps | dados_publicos_cnpj_receita_federal/engine/empresas.py:54-113 | every column the statements do not write keeps its loaded value |
| EmpresasEngine.LoadedColumnNames | dados_publicos_cnpj_receita_federal/engine/empresas.py:41-51 | the loaded table's columns are the seven declared ones followed by `safra` |
| EmpresasEngine.DerivedNamesFresh | dados_publicos_cnpj_receita_federal/engine/empresas.py:75-105 | each added description column is new when it is added |
| EmpresasEngine.TransformShape | dados_publicos_cnpj_receita_federal/engine/empresas.py:75-106 | the final columns are the loaded ones followed by `porte_desc`, `natureza_juridica` and `qualificacao_responsavel`; the row count is kept |
| EmpresasEngine.TransformWellFormed | dados_publicos_cnpj_receita_federal/engine/empresas.py:54-113 | the transformation keeps the table well formed |
| EmpresasEngine.DescribeEmpresas | dados_publicos_cnpj_receita_federal/engine/empresas.py:55-83 | the padding and porte statements change only `empresas`, as the Describe function states |
| EmpresasEngine.LookUpEmpresas | dados_publicos_cnpj_receita_federal/engine/empresas.py:85-113 | the two subquery statements change only `empresas`, as the LookUp function states |
| EmpresasEngine.TransformEmpresas | dados_publicos_cnpj_receita_federal/engine/empresas.py:54-116 | all statements change only `empresas`, as the Transform function states, and the count is the loaded row count |
| EmpresasEngine.ProcessarEmpresas | dados_publicos_cnpj_receita_federal/engine/empresas.py:15-118 | a failed load stops with its error; otherwise the loaded table is transformed against the reference tables the load guaranteed, and its row count is reported |
| EstabelecimentosEngine.MatrizDescricaoCodes | dados_publicos_cnpj_receita_federal/engine/estabelecimentos.py:150-165 | MATRIZ exactly for 1, FILIAL exactly for 2, NULL for anything else |
| EstabelecimentosEngine.MatrizDescricaoNotIdempotent | dados_publicos_cnpj_receita_federal/engine/estabelecimentos.py:160-163 | `matriz_filial` is rewritten in place, so a second run turns MATRIZ into NULL |
| EstabelecimentosEngine.SituacaoDescricaoCodes | dados_publicos_cnpj_receita_federal/engine/estabelecimentos.py:167-187 | each status description appears exactly for its code 01, 02, 03, 04 or 08, and NULL otherwise |
| EstabelecimentosEngine.PadCells | dados_publicos_cnpj_receita_federal/engine/estabelecimentos.py:79-104 | `cnpj_basico` is padded to 8, `cnpj_ordem` to 4 and `cnpj_dv` to 4 |
| EstabelecimentosEngine.PadKeeps | dados_publicos_cnpj_receita_federal/engine/estabelecimentos.py:79-104 | the padding statements change no other column |
| EstabelecimentosEngine.AddCnpjCells | dados_publicos_cnpj_receita_federal/engine/estabelecimentos.py:106-115 | `cnpj` is the concatenation of the three parts |
| EstabelecimentosEngine.AddCnpjKeeps | dados_publicos_cnpj_receita_federal/engine/estabelecimentos.py:106-115 | building `cnpj` changes no other column |
| EstabelecimentosEngine.ReformatDatesCells | dados_publicos_cnpj_receita_federal/engine/estabelecimentos.py:117-148 | the three dates are reformatted without a sentinel guard |
| EstabelecimentosEngine.ReformatDatesKeeps | dados_publicos_cnpj_receita_federal/engine/estabelecimentos.py:117-148 | the date statements change no other column |
| EstabelecimentosEngine.DescribeCells | dados_publicos_cnpj_receita_federal/engine/estabelecimentos.py:150-187 | `matriz_filial` is replaced by its description and `situacao_cadastral_descricao` describes `situacao_cadastral` |
| EstabelecimentosEngine.DescribeKeeps | dados_publicos_cnpj_receita_federal/engine/estabelecimentos.py:150-187 | the CASE statements change no other column |
| EstabelecimentosEngine.LookUpCells | dados_publicos_cnpj_receita_federal/engine/estabelecimentos.py:189-217 | the reason and the municipality are looked up by their codes in `motivos` and `municipios` |
| EstabelecimentosEngine.LookUpKeeps | dados_publicos_cnpj_receita_federal/engine/estabelecimentos.py:189-217 | the subquery statements change no other column |
| EstabelecimentosEngine.CnpjFromPadded | dados_publicos_cnpj_receita_federal/engine/estabelecimentos.py:79-115 | `cnpj` is built from the padded parts, not from the loaded ones |
| EstabelecimentosEngine.CnpjKept | dados_publicos_cnpj_receita_federal/engine/estabelecimentos.py:117-217 | the later statements do not touch the CNPJ columns |
| EstabelecimentosEngine.TransformKeeps | dados_publicos_cnpj_receita_federal/engine/estabelecimentos.py:78-217 | every column the statements do not write keeps its loaded value |
| EstabelecimentosEngine.TransformCnpj | dados_publicos_cnpj_receita_federal/engine/estabelecimentos.py:79-115 | in the final table the parts are padded and `cnpj` concatenates them, in terms of the loaded row |
| EstabelecimentosEngine.CnpjWidth | dados_publicos_cnpj_receita_federal/engine/estabelecimentos.py:97-113 | `cnpj` is NULL exactly when a part is NULL; otherwise it has 16 characters, the 8-character root first and the 4-character padded check digits last |
| EstabelecimentosEngine.TransformDates | dados_publicos_cnpj_receita_federal/engine/estabelecimentos.py:117-148 | the three final dates are the unguarded reformat of the loaded dates |
| EstabelecimentosEngine.TransformDescriptions | dados_publicos_cnpj_receita_federal/engine/estabelecimentos.py:150-217 | the final branch and status descriptions, and the two looked-up columns, in terms of the loaded codes |
| EstabelecimentosEngine.TransformShape | dados_publicos_cnpj_receita_federal/engine/estabelecimentos.py:106-217 | four new columns are appended in statement order (`cnpj`, `situacao_cadastral_descricao`, `situacao_cadastral_motivo`, `municipio`); the row count is kept |
| EstabelecimentosEngine.DescribeShape | dados_publicos_cnpj_receita_federal/engine/estabelecimentos.py:179-180 | the status description becomes the last column |
| EstabelecimentosEngine.LookUpShape | dados_publicos_cnpj_receita_federal/engine/estabelecimentos.py:193-209 | the reason and municipality columns are appended in that order |
| EstabelecimentosEngine.TransformWellFormed | dados_publicos_cnpj_receita_federal/engine/estabelecimentos.py:78-217 | the transformation keeps the table well formed |
| EstabelecimentosEngine.LoadedColumnsOrder | dados_publicos_cnpj_receita_federal/engine/estabelecimentos.py:42-75 | the loaded columns are the thirty declared ones followed by `safra` |
| EstabelecimentosEngine.LoadedColumnsPresent | dados_publicos_cnpj_receita_federal/engine/estabelecimentos.py:42-73 | every column the UPDATEs overwrite is loaded |
| EstabelecimentosEngine.LoadedColumnsFresh | dados_publicos_cnpj_receita_federal/engine/estabelecimentos.py:42-73 | none of the four added columns is loaded |
| EstabelecimentosEngine.PadEstabelecimentos | dados_publicos_cnpj_receita_federal/engine/estabelecimentos.py:79-104 | the three LPAD statements change only `estabelecimentos`, as Pad states |
| EstabelecimentosEngine.ReformatDatesEstabelecimentos | dados_publicos_cnpj_receita_federal/engine/estabelecimentos.py:117-148 | the three date statements change only `estabelecimentos`, as ReformatDates states |
| EstabelecimentosEngine.DescribeEstabelecimentos | dados_publicos_cnpj_receita_federal/engine/estabelecimentos.py:150-187 | the two CASE statements change only `estabelecimentos`, as Describe states |
| EstabelecimentosEngine.LookUpEstabelecimentos | dados_publicos_cnpj_receita_federal/engine/estabelecimentos.py:189-217 | the two subquery statements change only `estabelecimentos`, as LookUp states |
| EstabelecimentosEngine.AddCnpjEstabelecimentos | dados_publicos_cnpj_receita_federal/engine/estabelecimentos.py:79-115 | padding and `cnpj` change only `estabelecimentos`, and the overwritten columns stay present |
| EstabelecimentosEngine.TransformEstabelecimentos | dados_publicos_cnpj_receita_federal/engine/estabelecimentos.py:78-220 | all statements change only `estabelecimentos`, as Transform states, and the count is the loaded row count |
| EstabelecimentosEngine.ProcessarEstabelecimentos | dados_publicos_cnpj_receita_federal/engine/estabelecimentos.py:15-222 | a failed load stops with its error; otherwise the loaded table is transformed against `motivos` and `municipios`, and its row count is reported |
| SociosEngine.IdentificadorDescricaoCodes | dados_publicos_cnpj_receita_federal/engine/socios.py:70-83 | each description appears exactly for its code 1, 2 or 3; OUTROS for anything else, NULL included; never NULL |
| SociosEngine.IdentificadorDescricaoNotIdempotent | dados_publicos_cnpj_receita_federal/engine/socios.py:75-81 | the column is rewritten in place, so a second run turns PESSOA FISICA into OUTROS |
| SociosEngine.FaixaKeysDistinct | dados_publicos_cnpj_receita_federal/engine/socios.py:131-142 | the ten age-band codes are distinct |
| SociosEngine.FaixaDescricaoCodes | dados_publicos_cnpj_receita_federal/engine/socios.py:130-156 | each listed code gives its own band, and any other code gives NULL |
| SociosEngine.FaixaDescricaoSamples | dados_publicos_cnpj_receita_federal/engine/socios.py:131-154 | 00 is "Não se aplica"; 10 and NULL have no band |
| SociosEngine.FaixaPaddedCode | dados_publicos_cnpj_receita_federal/engine/socios.py:149-154 | a one-digit code is padded with a leading zero before the band is looked up |
| SociosEngine.PrepareCells | dados_publicos_cnpj_receita_federal/engine/socios.py:62-83 | `cnpj_basico` is padded to 8 and `identificador_socio` is replaced by its description |
| SociosEngine.PrepareKeeps | dados_publicos_cnpj_receita_federal/engine/socios.py:62-83 | those two statements change no other column |
| SociosEngine.QualifyCells | dados_publicos_cnpj_receita_federal/engine/socios.py:85-128 | both qualifications are looked up in `qualificacoes_socios`, and the entry date is reformatted with the 00000000 guard |
| SociosEngine.QualifyKeeps | dados_publicos_cnpj_receita_federal/engine/socios.py:85-128 | those statements change no other column |
| SociosEngine.AgeBandCells | dados_publicos_cnpj_receita_federal/engine/socios.py:130-156 | the age-band code is padded to 2 and the band is described from the padded code |
| SociosEngine.AgeBandKeeps | dados_publicos_cnpj_receita_federal/engine/socios.py:130-156 | the age-band statements change no other column |
| SociosEngine.TransformKeeps | dados_publicos_cnpj_receita_federal/engine/socios.py:61-156 | every column the statements do not write keeps its loaded value |
| SociosEngine.TransformPrepared | dados_publicos_cnpj_receita_federal/engine/socios.py:62-83 | the final `cnpj_basico` and `identificador_socio`, in terms of the loaded row |
| SociosEngine.TransformQualified | dados_publicos_cnpj_receita_federal/engine/socios.py:85-128 | the final qualifications and entry date, in terms of the loaded row |
| SociosEngine.TransformAgeBand | dados_publicos_cnpj_receita_federal/engine/socios.py:130-156 | the final age-band code and band, in terms of the loaded code |
| SociosEngine.QualifyShape | dados_publicos_cnpj_receita_federal/engine/socios.py:89-120 | the two qualification columns are appended in order |
| SociosEngine.AgeBandShape | dados_publicos_cnpj_receita_federal/engine/socios.py:147-148 | the band column is appended |
| SociosEngine.TransformShape | dados_publicos_cnpj_receita_federal/engine/socios.py:85-156 | the final columns are the loaded ones followed by the two qualifications and the band; the row count is kept |
| SociosEngine.TransformWellFormed | dados_publicos_cnpj_receita_federal/engine/socios.py:61-156 | the transformation keeps the table well formed |
| SociosEngine.QualifyWellFormed | dados_publicos_cnpj_receita_federal/engine/socios.py:85-128 | the qualification statements keep the table well formed and the overwritten columns present |
| SociosEngine.AgeBandWellFormed | dados_publicos_cnpj_receita_federal/engine/socios.py:130-156 | the age-band statements keep the table well formed |
| SociosEngine.LoadedColumnsOrder | dados_publicos_cnpj_receita_federal/engine/socios.py:44-58 | the loaded columns are the eleven declared ones followed by `safra` |
| SociosEngine.LoadedColumnsPresent | dados_publicos_cnpj_receita_federal/engine/socios.py:44-56 | every column the UPDATEs overwrite is loaded |
| SociosEngine.LoadedColumnsFresh | dados_publicos_cnpj_receita_federal/engine/socios.py:44-56 | none of the three added columns is loaded |
| SociosEngine.PrepareSocios | dados_publicos_cnpj_receita_federal/engine/socios.py:62-83 | the two statements change only `socios`, as Prepare states |
| SociosEngine.QualifySocios | dados_publicos_cnpj_receita_federal/engine/socios.py:85-128 | the three statements change only `socios`, as Qualify states |
| SociosEngine.AgeBandSocios | dados_publicos_cnpj_receita_federal/engine/socios.py:130-156 | the age-band statements change only `socios`, as AgeBand states |
| SociosEngine.TransformSocios | dados_publicos_cnpj_receita_federal/engine/socios.py:61-159 | all statements change only `socios`, as Transform states, and the count is the loaded row count |
| SociosEngine.ProcessarSocios | dados_publicos_cnpj_receita_federal/engine/socios.py:15-161 | a failed load stops with its error; otherwise the loaded table is transformed against `qualificacoes_socios`, and its row count is reported |
| SimplesEngine.OpcaoDescricaoCodes | dados_publicos_cnpj_receita_federal/engine/simples.py:64-76 | SIM exactly for S, NÃO exactly for N, OUTROS for anything else, NULL included; never NULL |
| SimplesEngine.OpcaoDescricaoNotIdempotent | dados_publicos_cnpj_receita_federal/engine/simples.py:69-74 | the flag is rewritten in place, so a second run turns SIM into OUTROS |
| SimplesEngine.RegimeCells | dados_publicos_cnpj_receita_federal/engine/simples.py:64-105 | for one regime the flag is described and both dates are reformatted with the 00000000 guard |
| SimplesEngine.RegimeKeeps | dados_publicos_cnpj_receita_federal/engine/simples.py:64-105 | one regime's statements change no other column |
| SimplesEngine.TransformCnpj | dados_publicos_cnpj_receita_federal/engine/simples.py:55-62 | the final `cnpj_basico` is the loaded one padded to 8 |
| SimplesEngine.TransformSimplesOption | dados_publicos_cnpj_receita_federal/engine/simples.py:64-105 | the final Simples flag and dates, in terms of the loaded row |
| SimplesEngine.TransformMeiOption | dados_publicos_cnpj_receita_federal/engine/simples.py:107-147 | the final MEI flag and dates, in terms of the loaded row |
| SimplesEngine.TransformKeeps | dados_publicos_cnpj_receita_federal/engine/simples.py:54-147 | every column outside the seven declared ones, `safra` included, keeps its loaded value |
| SimplesEngine.TransformShape | dados_publicos_cnpj_receita_federal/engine/simples.py:54-147 | no column is added or removed and the row count is kept |
| SimplesEngine.TransformWellFormed | dados_publicos_cnpj_receita_federal/engine/simples.py:54-147 | the transformation keeps the table well formed |
| SimplesEngine.RegimeWellFormed | dados_publicos_cnpj_receita_federal/engine/simples.py:64-105 | one regime's statements keep the table well formed and its columns unchanged |
| SimplesEngine.SimplesColumnsListed | dados_publicos_cnpj_receita_federal/engine/simples.py:41-49 | every column the statements overwrite is declared |
| SimplesEngine.LoadedColumnsOrder | dados_publicos_cnpj_receita_federal/engine/simples.py:41-51 | the loaded columns are the seven declared ones followed by `safra`, and they include every overwritten column |
| SimplesEngine.RegimeSimples | dados_publicos_cnpj_receita_federal/engine/simples.py:64-105 | one regime's three statements change only `simples`, as Regime states |
| SimplesEngine.TransformSimples | dados_publicos_cnpj_receita_federal/engine/simples.py:54-150 | all statements change only `simples`, as Transform states, and the count is the loaded row count |
| SimplesEngine.ProcessarSimples | dados_publicos_cnpj_receita_federal/engine/simples.py:15-152 | a failed load stops with its error; otherwise the loaded table is transformed and its row count is reported |
| RegimeEngine.NamesDistinct | dados_publicos_cnpj_receita_federal/engine/regime_tributario.py:51-60 | the four part tables and the union table have distinct names, none of them `temp_table` |
| RegimeEngine.NamesNotReference | dados_publicos_cnpj_receita_federal/engine/regime_tributario.py:51-60 | no part table or union table is named like a reference table |
| RegimeEngine.LoadedColumnsOrder | dados_publicos_cnpj_receita_federal/engine/regime_tributario.py:43-49 | each loaded part has the five declared columns followed by `safra`, `cnpj` among them |
| RegimeEngine.LoadPartSpec | dados_publicos_cnpj_receita_federal/engine/regime_tributario.py:50-60 | a part load that passes leaves the typed load of its files under its name and keeps every other existing table |
| RegimeEngine.LoadParts | dados_publicos_cnpj_receita_federal/engine/regime_tributario.py:50-60 | when all four loads pass, all four parts are present with the shared columns |
| RegimeEngine.LoadPartsValues | dados_publicos_cnpj_receita_federal/engine/regime_tributario.py:50-60 | each part holds the typed load of its own files: Lucro Presumido and Imunes with `;` and no header, Lucro Arbitrado and Lucro Real with `,` and a header |
| RegimeEngine.UnionOfParts | dados_publicos_cnpj_receita_federal/engine/regime_tributario.py:70-77 | the union has the parts' columns |
| RegimeEngine.UnionOrder | dados_publicos_cnpj_receita_federal/engine/regime_tributario.py:70-77 | the union holds the presumido, arbitrado, real and imune rows, in that order, and its size is the sum of their sizes |
| RegimeEngine.CombineTable | dados_publicos_cnpj_receita_federal/engine/regime_tributario.py:66-91 | after the union and the cleanup, `regime_tributario` exists with the shared columns and as many rows as the union |
| RegimeEngine.CombineFrame | dados_publicos_cnpj_receita_federal/engine/regime_tributario.py:66-82 | the four part tables are gone, and every other table is as it was |
| RegimeEngine.CombineCells | dados_publicos_cnpj_receita_federal/engine/regime_tributario.py:66-91 | each final row is the union row with only `cnpj` cleaned |
| RegimeEngine.CombineCnpjClean | dados_publicos_cnpj_receita_federal/engine/regime_tributario.py:84-91 | no final `cnpj` contains `.`, `/` or `-` |
| RegimeEngine.UnitedTable | dados_publicos_cnpj_receita_federal/engine/regime_tributario.py:66-82 | after the union block, `regime_tributario` is exactly the union of the parts and has a `cnpj` column |
| RegimeEngine.LoadPartsInto | dados_publicos_cnpj_receita_federal/engine/regime_tributario.py:50-60 | the four load calls give exactly the catalogue and outcome of LoadParts |
| RegimeEngine.UniteParts | dados_publicos_cnpj_receita_federal/engine/regime_tributario.py:66-83 | the union statement and the four drops leave exactly the union table in place of the parts |
| RegimeEngine.CleanCnpj | dados_publicos_cnpj_receita_federal/engine/regime_tributario.py:85-91 | the cleanup statement changes only `cnpj` of the named table |
| RegimeEngine.ProcessParts | dados_publicos_cnpj_receita_federal/engine/regime_tributario.py:15-96 | the first failing load stops with its error; otherwise the catalogue is Combine of the loaded parts, and the union's row count is reported |
| RegimeEngine.ProcessarRegimeTributario | dados_publicos_cnpj_receita_federal/engine/regime_tributario.py:15-96 | the same for the program's own table names, which are shown to be distinct |
| Unload.TableDirShape | dados_publicos_cnpj_receita_federal/io/unload.py:78-81 | a table's folder is `<root>/format_parquet/<table>` |
| Unload.FileNameInjective | dados_publicos_cnpj_receita_federal/io/unload.py:87-88 | distinct file numbers of a table give distinct file names |
| Unload.FileNameOwned | dados_publicos_cnpj_receita_federal/io/unload.py:80-88 | a chunk file lies in its own table's folder, and in no folder of a table whose name starts differently |
| Unload.ExportOrderInitials | dados_publicos_cnpj_receita_federal/io/unload.py:56-63 | the six exported tables' names differ in their first two characters, so no two share a folder |
| Unload.OffsetBelow | dados_publicos_cnpj_receita_federal/io/unload.py:86 | `range(0, total_rows, chunk_size)` yields the offset k × chunk_size exactly when k is below the file count |
| Unload.FileNumber | dados_publicos_cnpj_receita_federal/io/unload.py:87 | `offset // chunk_size` recovers the number of the chunk |
| Unload.FileCountCeil | dados_publicos_cnpj_receita_federal/io/unload.py:86 | an empty table gives no files; otherwise the file count is the least k with k × chunk_size ≥ the row count |
| Unload.ChunkAt | dados_publicos_cnpj_receita_federal/io/unload.py:95 | LIMIT chunk_size gives at most chunk_size rows |
| Unload.ChunkSizes | dados_publicos_cnpj_receita_federal/io/unload.py:95 | every chunk but the last is full, and the last is not empty |
| Unload.GatherPrefix | dados_publicos_cnpj_receita_federal/io/unload.py:86-98 | the first m chunks, in order, are the first m × chunk_size rows of the table |
| Unload.ChunksCover | dados_publicos_cnpj_receita_federal/io/unload.py:86-98 | all chunks in order are exactly the table's rows: none lost, none repeated |
| Unload.RoundsVersusFiles | dados_publicos_cnpj_receita_federal/io/unload.py:84-90 | the logged round count is 1 for an empty table with no file, and otherwise at most one below the file count |
| Unload.RoundsExample | dados_publicos_cnpj_receita_federal/io/unload.py:84-86 | three rows in chunks of two give two files but are logged as one round |
| Unload.WrittenAt | dados_publicos_cnpj_receita_federal/io/unload.py:86-98 | after m copies, file k (k < m) holds chunk k |
| Unload.WrittenFresh | dados_publicos_cnpj_receita_federal/io/unload.py:86-98 | no file numbered m or higher is written by the first m copies |
| Unload.WrittenCount | dados_publicos_cnpj_receita_federal/io/unload.py:86-98 | m copies write m distinct files |
| Unload.WrittenOwned | dados_publicos_cnpj_receita_federal/io/unload.py:80-98 | every file written for a table lies in its folder, and in no folder of a table whose name starts differently |
| Unload.FormatChecked | dados_publicos_cnpj_receita_federal/io/unload.py:64-102 | any format but parquet raises NotImplementedError on the first table, after making only the export folder and writing nothing |
| Unload.ZeroChunk | dados_publicos_cnpj_receita_federal/io/unload.py:83-84 | chunk_size 0 writes nothing; the first table raises ZeroDivisionError, or a missing-table error when `cnaes` is absent |
| Unload.NegativeChunkTables | dados_publicos_cnpj_receita_federal/io/unload.py:83-86 | a negative chunk_size writes nothing, and passes exactly when every table exists |
| Unload.ExportTablesWrites | dados_publicos_cnpj_receita_federal/io/unload.py:75-98 | for existing tables with distinct initials, every chunk of every table is written to its file, and files outside their folders are untouched |
| Unload.UnloadWrites | dados_publicos_cnpj_receita_federal/io/unload.py:17-102 | with a positive chunk_size and all six tables present, the export passes and every chunk of every table is in its file under the chosen root |
| Unload.Disk.MakeDirs | dados_publicos_cnpj_receita_federal/io/unload.py:79-81 | `os.makedirs(..., exist_ok=True)` adds the folder and touches no file |
| Unload.Disk.Copy | dados_publicos_cnpj_receita_federal/io/unload.py:91-98 | COPY TO writes, or overwrites, one file with the given rows |
| Unload.CopyChunks | dados_publicos_cnpj_receita_federal/io/unload.py:86-98 | the offset loop adds exactly the file map of all chunks, in its own folder, and makes no folder |
| Unload.UnloadTable | dados_publicos_cnpj_receita_federal/io/unload.py:76-102 | one pass of the table loop gives exactly the disk and outcome of ExportTable |
| Unload.UnloadSafra | dados_publicos_cnpj_receita_federal/io/unload.py:17-102 | the whole export gives exactly the disk and outcome of UnloadPlan |

## Left out

- Reading CSV files is the parameter `read`. DuckDB's `read_csv_auto` sniffing, quoting and
  `union_by_name` are not modelled: the staged table is whatever the reader returns.
- `process_mapping` reads the reference tables without a type dictionary, so DuckDB may sniff
  `codigo` as an integer. The lookups in `engine/estabelecimentos.py` (lines 199 and 214),
  `engine/empresas.py` (lines 95 and 110) and `engine/socios.py` (lines 95 and 125) compare it
  with VARCHAR codes, and DuckDB may then let `'01'` match `1`. Here reference codes are compared
  as the text the reader returns: `'01'` never matches `'1'`, and that lookup gives NULL.
- The downloading and unzipping of the release files are not modelled. The `cnaes` table comes
  from the IBGE web service, which is one more reader request.
- Logging, `show()`, the timings and `SET progress_bar_time` are left out: they have no effect on
  the tables or files.
- The separate connections of each `with connect_db(...)` block are left out. All statements act
  on one `Db.Store`. `check_table_exists` always queries `DB_URI`; the model asks the same store
  that is being loaded, which is what the program does when `db_uri` is `DB_URI`.
- `os.path.join` is modelled for relative components only. An absolute `export_path` component
  behaves as a plain string here, and a component that already ends in `/` gets a second
  separator (`out//2024-01`, where `os.path.join` writes `out/2024-01`). `os.makedirs` records
  only the folder it is given, not its parents.
- The `threads` argument and the ZSTD compression of `unload_safra` are left out: they do not
  change the rows a file holds. A Parquet file is modelled by the rows it contains.
- Concurrency and failures of the file system or of DuckDB itself are not modelled.
- Core.Project: a DOUBLE column keeps its text with the decimal comma turned into a point. The
  final `::DOUBLE` cast is taken to succeed, so floating point and its parse errors are not
  modelled.
- Core.CastInteger: DuckDB's cast also trims surrounding spaces and accepts some other spellings.
  The model accepts only an optional sign followed by ASCII digits.
- Tables.LookupRows: on a code that several reference rows share, the model takes the first row.
  DuckDB may instead pick an arbitrary row or raise an error, depending on its version. Tables.LookupUnique
  states the result when codes are unique.
- RegimeEngine.UnionOrder: SQL does not promise that UNION ALL keeps this row order. The model
  takes the order written.
- Unload.ChunksCover: it relies on every `LIMIT ... OFFSET` query reading the table in the same
  order. Without `ORDER BY`, SQL does not promise this.
- The `processar_*` functions return nothing in the source. The model's `Ok(n)` is the row count
  they log.
- The union statement in `processar_regime_tributario` names the part tables by literal strings.
  The model uses the names the four loads build (`regime_tributario` plus a suffix), which spell
  the same strings.
- A negative `chunk_size` writes nothing because `range` is then empty. `Unload.UnloadTable`
  expresses this as a guard around the loop.
