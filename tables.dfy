/**
 * Tables as the pipeline sees them: an ordered list of column names and a
 * sequence of rows, each row mapping column names to nullable text cells.
 * The functions here are the relational statements the pipeline issues
 * (UPDATE ... SET, ALTER TABLE ADD/DROP COLUMN, UNION ALL, and the
 * correlated scalar subquery used for reference lookups).
 */
module Tables {
  import opened Wrappers
  import opened SqlText

  type Row = map<string, Cell>

  datatype Table = Table(columns: seq<string>, rows: seq<Row>)

  /** The value of column `c` in a row; a column the row lacks reads as NULL. */
  function Get(r: Row, c: string): Cell
  {
    if c in r then r[c] else None
  }

  predicate NoDup(s: seq<string>)
  {
    forall i, j :: 0 <= i < j < |s| ==> s[i] != s[j]
  }

  function ColumnSet(t: Table): set<string>
  {
    set c | c in t.columns
  }

  /** Column names are distinct and every row has exactly the table's columns. */
  predicate WellFormed(t: Table)
  {
    && NoDup(t.columns)
    && forall i :: 0 <= i < |t.rows| ==> t.rows[i].Keys == ColumnSet(t)
  }

  /** The column list with `c` removed, the others kept in order. */
  function Without(cols: seq<string>, c: string): (r: seq<string>)
    ensures forall x :: x in r <==> x in cols && x != c
    ensures c !in cols ==> r == cols
    ensures NoDup(cols) ==> NoDup(r)
  {
    if cols == [] then []
    else
      var rest := Without(cols[1..], c);
      assert NoDup(cols) ==> NoDup(cols[1..]) && cols[0] !in rest;
      (if cols[0] == c then [] else [cols[0]]) + rest
  }

  /** UPDATE t SET col = f(row): every row is rewritten, none is added or removed. */
  function Update(t: Table, col: string, f: Row -> Cell): (u: Table)
    ensures u.columns == t.columns && |u.rows| == |t.rows|
  {
    Table(t.columns, seq(|t.rows|, i requires 0 <= i < |t.rows| => t.rows[i][col := f(t.rows[i])]))
  }

  /** ALTER TABLE t ADD COLUMN col VARCHAR: a new last column holding NULL. */
  function AddColumn(t: Table, col: string): (u: Table)
    ensures u.columns == t.columns + [col] && |u.rows| == |t.rows|
  {
    Table(t.columns + [col], seq(|t.rows|, i requires 0 <= i < |t.rows| => t.rows[i][col := None]))
  }

  /** ALTER TABLE t DROP COLUMN IF EXISTS col. */
  function DropColumn(t: Table, col: string): (u: Table)
    ensures u.columns == Without(t.columns, col) && |u.rows| == |t.rows|
  {
    Table(Without(t.columns, col), seq(|t.rows|, i requires 0 <= i < |t.rows| => t.rows[i] - {col}))
  }

  /** After the UPDATE, row i holds f of its old value in `col` and keeps every other cell. */
  lemma UpdateCells(t: Table, col: string, f: Row -> Cell, i: nat)
    requires i < |t.rows|
    ensures forall d :: Get(Update(t, col, f).rows[i], d) == if d == col then f(t.rows[i]) else Get(t.rows[i], d)
  {
    assert Update(t, col, f).rows[i] == t.rows[i][col := f(t.rows[i])];
  }

  /** After ADD COLUMN, row i reads NULL in `col` and keeps every other cell. */
  lemma AddColumnCells(t: Table, col: string, i: nat)
    requires i < |t.rows|
    ensures forall d :: Get(AddColumn(t, col).rows[i], d) == if d == col then None else Get(t.rows[i], d)
  {
    assert AddColumn(t, col).rows[i] == t.rows[i][col := None];
  }

  /** After DROP COLUMN, row i reads NULL in `col` and keeps every other cell. */
  lemma DropColumnCells(t: Table, col: string, i: nat)
    requires i < |t.rows|
    ensures forall d :: Get(DropColumn(t, col).rows[i], d) == if d == col then None else Get(t.rows[i], d)
  {
    assert DropColumn(t, col).rows[i] == t.rows[i] - {col};
  }

  /** Updating an existing column keeps a table well formed. */
  lemma UpdateWellFormed(t: Table, col: string, f: Row -> Cell)
    requires WellFormed(t) && col in t.columns
    ensures WellFormed(Update(t, col, f))
  {
    var u := Update(t, col, f);
    forall i | 0 <= i < |u.rows|
      ensures u.rows[i].Keys == ColumnSet(u)
    {
      assert u.rows[i] == t.rows[i][col := f(t.rows[i])];
    }
  }

  /** Adding a new column keeps a table well formed. */
  lemma AddColumnWellFormed(t: Table, col: string)
    requires WellFormed(t) && col !in t.columns
    ensures WellFormed(AddColumn(t, col))
  {
    var u := AddColumn(t, col);
    assert ColumnSet(u) == ColumnSet(t) + {col};
    forall i | 0 <= i < |u.rows|
      ensures u.rows[i].Keys == ColumnSet(u)
    {
      assert u.rows[i] == t.rows[i][col := None];
    }
  }

  /** Dropping a column keeps a table well formed. */
  lemma DropColumnWellFormed(t: Table, col: string)
    requires WellFormed(t)
    ensures WellFormed(DropColumn(t, col))
  {
    var u := DropColumn(t, col);
    assert ColumnSet(u) == ColumnSet(t) - {col};
    forall i | 0 <= i < |u.rows|
      ensures u.rows[i].Keys == ColumnSet(u)
    {
      assert u.rows[i] == t.rows[i] - {col};
    }
  }

  /** DROP COLUMN IF EXISTS on a column the table does not have changes nothing. */
  lemma DropColumnAbsent(t: Table, col: string)
    requires WellFormed(t) && col !in t.columns
    ensures DropColumn(t, col) == t
  {
    var u := DropColumn(t, col);
    forall i | 0 <= i < |t.rows|
      ensures u.rows[i] == t.rows[i]
    {
      assert col !in t.rows[i].Keys;
      assert u.rows[i] == t.rows[i] - {col};
    }
    assert u.rows == t.rows;
  }

  /** A row after DROP COLUMN IF EXISTS col and ADD COLUMN col: `col` reads NULL. */
  function Cleared(r: Row, col: string): (c: Row)
    ensures forall d :: Get(c, d) == if d == col then None else Get(r, d)
  {
    (r - {col})[col := None]
  }

  /**
   * The statement block DROP COLUMN IF EXISTS col; ADD COLUMN col VARCHAR;
   * UPDATE SET col = f(row): `col` moves to the end.
   */
  function Derive(t: Table, col: string, f: Row -> Cell): (u: Table)
    ensures u.columns == Without(t.columns, col) + [col] && |u.rows| == |t.rows|
  {
    Update(AddColumn(DropColumn(t, col), col), col, f)
  }

  /**
   * After the block, row i holds in `col` the value of f on the row with
   * `col` cleared, and keeps every other cell.
   */
  lemma DeriveCells(t: Table, col: string, f: Row -> Cell, i: nat)
    requires i < |t.rows|
    ensures forall d :: Get(Derive(t, col, f).rows[i], d) ==
              if d == col then f(Cleared(t.rows[i], col)) else Get(t.rows[i], d)
  {
    var added := AddColumn(DropColumn(t, col), col);
    assert added.rows[i] == Cleared(t.rows[i], col) by {
      assert added.rows[i] == (DropColumn(t, col).rows[i])[col := None];
      assert DropColumn(t, col).rows[i] == t.rows[i] - {col};
    }
    UpdateCells(added, col, f, i);
  }

  /** A derived column the table does not yet have is appended at the end. */
  lemma DeriveFresh(t: Table, col: string, f: Row -> Cell)
    requires col !in t.columns
    ensures Derive(t, col, f).columns == t.columns + [col]
  {
  }

  /** A derived column keeps a table well formed. */
  lemma DeriveWellFormed(t: Table, col: string, f: Row -> Cell)
    requires WellFormed(t)
    ensures WellFormed(Derive(t, col, f))
  {
    DropColumnWellFormed(t, col);
    AddColumnWellFormed(DropColumn(t, col), col);
    UpdateWellFormed(AddColumn(DropColumn(t, col), col), col, f);
  }

  /** SELECT * FROM a UNION ALL SELECT * FROM b over two tables with the same columns. */
  function UnionAll(a: Table, b: Table): (u: Table)
    requires a.columns == b.columns
    ensures u.columns == a.columns
    ensures |u.rows| == |a.rows| + |b.rows|
    ensures u.rows[..|a.rows|] == a.rows && u.rows[|a.rows|..] == b.rows
    ensures WellFormed(a) && WellFormed(b) ==> WellFormed(u)
  {
    Table(a.columns, a.rows + b.rows)
  }

  /** No two rows of `ref` carry the same non-null key in column `keyCol`. */
  predicate UniqueKeys(ref: Table, keyCol: string)
  {
    forall i, j :: 0 <= i < j < |ref.rows| && Get(ref.rows[i], keyCol).Some? ==>
      Get(ref.rows[i], keyCol) != Get(ref.rows[j], keyCol)
  }

  /**
   * The value column of the first row whose key equals `code`, or NULL when
   * no row matches.
   */
  function LookupRows(rows: seq<Row>, keyCol: string, valCol: string, code: string): (r: Cell)
    ensures (forall i :: 0 <= i < |rows| ==> Get(rows[i], keyCol) != Some(code)) ==> r == None
    ensures forall i :: 0 <= i < |rows| && Get(rows[i], keyCol) == Some(code)
                        && (forall j :: 0 <= j < i ==> Get(rows[j], keyCol) != Some(code))
                        ==> r == Get(rows[i], valCol)
    ensures r.Some? ==> exists i :: 0 <= i < |rows| && Get(rows[i], keyCol) == Some(code) && Get(rows[i], valCol) == r
  {
    if rows == [] then None
    else if Get(rows[0], keyCol) == Some(code) then Get(rows[0], valCol)
    else
      var r := LookupRows(rows[1..], keyCol, valCol, code);
      assert forall i :: 1 <= i < |rows| ==> rows[i] == rows[1..][i - 1];
      r
  }

  /**
   * (SELECT valCol FROM ref WHERE ref.keyCol = code): a correlated scalar
   * subquery. A NULL code equals nothing, so it yields NULL.
   */
  function Lookup(ref: Table, keyCol: string, valCol: string, code: Cell): (r: Cell)
    ensures code.None? ==> r.None?
    ensures r.Some? ==> exists i :: 0 <= i < |ref.rows| && Get(ref.rows[i], keyCol) == code && Get(ref.rows[i], valCol) == r
  {
    match code
    case None => None
    case Some(k) => LookupRows(ref.rows, keyCol, valCol, k)
  }

  /**
   * With unique keys the lookup is exactly the join description: the value of
   * the single matching row, or NULL when the code matches no row.
   */
  lemma LookupUnique(ref: Table, keyCol: string, valCol: string, code: Cell)
    requires UniqueKeys(ref, keyCol)
    ensures forall i :: 0 <= i < |ref.rows| && code.Some? && Get(ref.rows[i], keyCol) == code ==>
              Lookup(ref, keyCol, valCol, code) == Get(ref.rows[i], valCol)
    ensures (forall i :: 0 <= i < |ref.rows| ==> Get(ref.rows[i], keyCol) != code) ==>
              Lookup(ref, keyCol, valCol, code) == None
  {
  }
}
