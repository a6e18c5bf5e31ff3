/**
 * The working database: a catalog from table names to tables. Each method is
 * one SQL statement the pipeline issues against it.
 */
module Db {
  import opened SqlText
  import opened Tables

  /** Writing a table twice leaves the catalog as the second write alone. */
  lemma StoreTwice(m: map<string, Table>, k: string, a: Table, b: Table)
    ensures m[k := a][k := b] == m[k := b]
  {
  }

  class Store {
    var catalog: map<string, Table>

    constructor (initial: map<string, Table>)
      ensures catalog == initial
    {
      catalog := initial;
    }

    /** DROP TABLE IF EXISTS name. */
    method DropTableIfExists(name: string)
      modifies this
      ensures catalog == old(catalog) - {name}
    {
      catalog := catalog - {name};
    }

    /** DROP TABLE name: the engine raises when the table is absent. */
    method DropTable(name: string)
      requires name in catalog
      modifies this
      ensures catalog == old(catalog) - {name}
    {
      catalog := catalog - {name};
    }

    /** CREATE TABLE name ... : the engine raises when the name is taken. */
    method CreateTable(name: string, t: Table)
      requires name !in catalog
      modifies this
      ensures catalog == old(catalog)[name := t]
    {
      catalog := catalog[name := t];
    }

    /** INSERT INTO name SELECT ...: the selected rows are appended. */
    method Insert(name: string, rows: seq<Row>)
      requires name in catalog
      modifies this
      ensures catalog == old(catalog)[name := Table(old(catalog)[name].columns, old(catalog)[name].rows + rows)]
    {
      catalog := catalog[name := Table(catalog[name].columns, catalog[name].rows + rows)];
    }

    /** ALTER TABLE name ADD COLUMN col VARCHAR. */
    method AddColumn(name: string, col: string)
      requires name in catalog && col !in catalog[name].columns
      modifies this
      ensures catalog == old(catalog)[name := Tables.AddColumn(old(catalog)[name], col)]
    {
      catalog := catalog[name := Tables.AddColumn(catalog[name], col)];
    }

    /** ALTER TABLE name DROP COLUMN IF EXISTS col. */
    method DropColumnIfExists(name: string, col: string)
      requires name in catalog
      modifies this
      ensures catalog == old(catalog)[name := Tables.DropColumn(old(catalog)[name], col)]
    {
      catalog := catalog[name := Tables.DropColumn(catalog[name], col)];
    }

    /** UPDATE name SET col = f(row). */
    method Update(name: string, col: string, f: Row -> Cell)
      requires name in catalog && col in catalog[name].columns
      modifies this
      ensures catalog == old(catalog)[name := Tables.Update(old(catalog)[name], col, f)]
    {
      catalog := catalog[name := Tables.Update(catalog[name], col, f)];
    }

    /**
     * One derived-column block: DROP COLUMN IF EXISTS col, ADD COLUMN col
     * VARCHAR, UPDATE SET col = f(row).
     */
    method DeriveColumn(name: string, col: string, f: Row -> Cell)
      requires name in catalog
      modifies this
      ensures catalog == old(catalog)[name := Derive(old(catalog)[name], col, f)]
    {
      DropColumnIfExists(name, col);
      AddColumn(name, col);
      Update(name, col, f);
    }

    /** SELECT COUNT(*) FROM name. */
    method Count(name: string) returns (n: nat)
      requires name in catalog
      ensures n == |catalog[name].rows|
    {
      n := |catalog[name].rows|;
    }
  }
}
