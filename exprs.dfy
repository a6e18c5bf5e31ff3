/**
 * The row expressions the transformers put on the right of UPDATE ... SET:
 * each is a function of the row being updated, built once from the column
 * names (and, for lookups, the reference table) that the statement names.
 */
module Exprs {
  import opened Wrappers
  import opened SqlText
  import opened Tables

  /** LPAD(col, w, '0'). */
  function PadColumn(col: string, w: nat): Row -> Cell
  {
    row => LPad(Get(row, col), w)
  }

  /** CASE col WHEN ... END over a dictionary of codes. */
  function CaseColumn(col: string, cases: seq<(string, string)>, otherwise: Cell): Row -> Cell
  {
    row => CaseWhen(Get(row, col), cases, otherwise)
  }

  /** (SELECT valCol FROM ref WHERE ref.keyCol = <table>.fromCol). */
  function LookupColumn(ref: Table, keyCol: string, valCol: string, fromCol: string): Row -> Cell
  {
    row => Lookup(ref, keyCol, valCol, Get(row, fromCol))
  }

  /** a || b || c over three columns of the row. */
  function ConcatColumns(a: string, b: string, c: string): Row -> Cell
  {
    row => Concat(Concat(Get(row, a), Get(row, b)), Get(row, c))
  }

  /** SUBSTR(col, 1, 4) || '-' || SUBSTR(col, 5, 2) || '-' || SUBSTR(col, 7, 2). */
  function DateColumn(col: string): Row -> Cell
  {
    row => Reformat(Get(row, col))
  }

  /** The same rewrite guarded by the '00000000' sentinel. */
  function GuardedDateColumn(col: string): Row -> Cell
  {
    row => GuardedDate(Get(row, col))
  }

  /** REPLACE(REPLACE(REPLACE(col, '.', ''), '/', ''), '-', ''). */
  function StripColumn(col: string): Row -> Cell
  {
    row => StripPunctuation(Get(row, col))
  }
}
