/** The older 5x7 parse table, indexed by the codes of the `Terminal` enum. */
module LegacyParseTable {
  import opened Wrappers
  import opened Terminals

  newtype Byte = x: int | -128 <= x < 128

  /** `Byte.MIN_VALUE`: no production for this pair. */
  const UNK: Byte := -128

  const Table: seq<seq<Byte>> := [
    /* SELECT_QUERY */ [0, UNK, UNK, UNK, UNK, UNK, UNK],
    /* WHERE_CLAUSE */ [UNK, UNK, 2, 1, 1, UNK, 1],
    /* WHERE_EXPR   */ [UNK, UNK, UNK, 4, 4, 3, 4],
    /* SKIP_CLAUSE  */ [UNK, UNK, UNK, 5, 6, UNK, 6],
    /* LIMIT_CLAUSE */ [UNK, UNK, UNK, UNK, 7, UNK, 8]
  ]

  /** `getCase`: the cell at the two symbols' codes; `None` stands for the
      `ArrayIndexOutOfBoundsException` an out-of-range code raises. */
  function GetCase(nonTerminalSymbol: Terminal, terminalSymbol: Terminal): (r: Option<int>)
    ensures r.Some? <==> 0 <= nonTerminalSymbol.Value() < 5 && 0 <= terminalSymbol.Value() < 7
  {
    var row := nonTerminalSymbol.Value();
    var column := terminalSymbol.Value();
    if 0 <= row < |Table| && 0 <= column < |Table[row]| then Some(Table[row][column] as int) else None
  }

  /** Every nonterminal paired with every terminal the scanner can return
      (anything but `TS_UNKNOWN`) is a cell of the table. */
  lemma GetCaseDefinedForScannedTerminals(n: Terminal, t: Terminal)
    requires !n.IsTerminal() && t.IsTerminal() && t != TsUnknown
    ensures GetCase(n, t).Some?
  {
  }

  /** The cells row by row; the FROM column is empty throughout. */
  lemma Cells(n: Terminal, t: Terminal)
    requires !n.IsTerminal() && t.IsTerminal() && t != TsUnknown
    ensures n == NtsSelectQuery ==> GetCase(n, t) == Some(if t == TsSelect then 0 else -128)
    ensures n == NtsWhereClause ==>
      GetCase(n, t) == Some(if t == TsWhere then 2 else if t in {TsSkip, TsLimit, TsEnd} then 1 else -128)
    ensures n == NtsWhereExpr ==>
      GetCase(n, t) == Some(if t == TsAnd then 3 else if t in {TsSkip, TsLimit, TsEnd} then 4 else -128)
    ensures n == NtsSkipClause ==>
      GetCase(n, t) == Some(if t == TsSkip then 5 else if t in {TsLimit, TsEnd} then 6 else -128)
    ensures n == NtsLimitClause ==>
      GetCase(n, t) == Some(if t == TsLimit then 7 else if t == TsEnd then 8 else -128)
    ensures t == TsFrom ==> GetCase(n, t) == Some(-128)
  {
  }
}
