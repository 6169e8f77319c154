/** The 10x13 parse table of the full grammar: one row per nonterminal, one
    column per terminal, holding a production number or `UNK`. */
module ParseTable {
  import opened Wrappers
  import opened Grammar

  newtype Byte = x: int | -128 <= x < 128

  /** `Byte.MIN_VALUE`: no production for this pair. */
  const UNK: Byte := -128

  const Table: seq<seq<Byte>> := [
    /* SELECT_QUERY  */ [0, UNK, UNK, UNK, UNK, UNK, UNK, UNK, UNK, UNK, UNK, UNK, UNK],
    /* SELECT_CLAUSE */ [UNK, 1, UNK, UNK, 3, UNK, UNK, UNK, UNK, UNK, UNK, UNK, UNK],
    /* SELECT_EXPR   */ [UNK, UNK, 4, 2, UNK, UNK, UNK, UNK, UNK, UNK, UNK, UNK, UNK],
    /* FROM_CLAUSE   */ [UNK, 5, UNK, UNK, UNK, UNK, UNK, UNK, UNK, UNK, UNK, UNK, UNK],
    /* FROM_EXPR     */ [UNK, UNK, UNK, 6, UNK, 7, UNK, 7, 7, 7, UNK, 7, UNK],
    /* WHERE_OPTION  */ [UNK, UNK, UNK, UNK, UNK, 8, UNK, 11, 11, 11, UNK, 11, UNK],
    /* WHERE_CLAUSE  */ [UNK, 9, UNK, UNK, UNK, UNK, 10, UNK, UNK, UNK, UNK, UNK, UNK],
    /* SKIP_OPTION   */ [UNK, UNK, UNK, UNK, UNK, UNK, UNK, 12, 13, 14, UNK, 14, UNK],
    /* LIMIT_OPTION  */ [UNK, UNK, UNK, UNK, UNK, UNK, UNK, UNK, UNK, 15, UNK, 16, UNK],
    /* WHERE_EXPR    */ [UNK, UNK, UNK, UNK, UNK, UNK, UNK, 18, 18, 18, 17, 18, UNK]
  ]

  /** `getCase`: the cell at the two symbols' codes. `None` stands for the
      `ArrayIndexOutOfBoundsException` raised when the first symbol's code is
      not a row (a terminal coded 10 or more). */
  function GetCase(nonTerminalSymbol: Symbol, terminalSymbol: Symbol): (r: Option<int>)
    ensures r.Some? <==> Value(nonTerminalSymbol) < 10 && Value(terminalSymbol) < 13
  {
    CaseIn(Table, nonTerminalSymbol, terminalSymbol)
  }

  /** The lookup of `getCase` in a given two-dimensional table. */
  function CaseIn(table: seq<seq<Byte>>, nonTerminalSymbol: Symbol, terminalSymbol: Symbol): Option<int> {
    var row := Value(nonTerminalSymbol);
    var column := Value(terminalSymbol);
    if row < |table| && column < |table[row]| then Some(table[row][column] as int) else None
  }

  /** The FIRST set of each nonterminal: the terminals that can begin a
      string it derives, END standing for the end of input after an option
      that derives nothing. `FirstIsFixpoint` proves these sets satisfy the
      FIRST equations of the grammar, and `LeftmostAcyclic` that the
      equations have no cycle, so they are their only solution. */
  function First(n: NonTerm): set<Term> {
    match n
    case SelectQuery => {Select}
    case SelectClause => {Name, Asterisk}
    case SelectExpr => {Comma, From}
    case FromClause => {Name}
    case FromExpr => {Comma, Where, Skip, Offset, Limit, End}
    case WhereOption => {Where, Skip, Offset, Limit, End}
    case WhereClause => {Name, Number}
    case SkipOption => {Skip, Offset, Limit, End}
    case LimitOption => {Limit, End}
    case WhereExpr => {And, Skip, Offset, Limit, End}
  }

  /** Lookahead `t` selects production `p`: `t` begins its right-hand side,
      where the empty right-hand side of production 16 stands for the end of
      input, END. */
  predicate Predicts(p: nat, t: Term)
    requires p < ProductionCount
  {
    var r := Rhs(Intended, p);
    if r == [] then t == End
    else
      match r[0]
      case T(u) => t == u
      case N(m) => t in First(m)
  }

  /** The productions of `n`, in production order. */
  function Alternatives(n: NonTerm): (r: seq<nat>)
    ensures 1 <= |r| <= 3
    ensures forall i :: 0 <= i < |r| ==> r[i] < ProductionCount && Lhs(r[i]) == n
  {
    match n
    case SelectQuery => [0]
    case SelectClause => [1, 3]
    case SelectExpr => [2, 4]
    case FromClause => [5]
    case FromExpr => [6, 7]
    case WhereOption => [8, 11]
    case WhereClause => [9, 10]
    case SkipOption => [12, 13, 14]
    case LimitOption => [15, 16]
    case WhereExpr => [17, 18]
  }

  /** Every production is listed among the alternatives of its left-hand side. */
  lemma AlternativesComplete(p: nat)
    requires p < ProductionCount
    ensures p in Alternatives(Lhs(p))
  {
  }

  /** `t` predicts one of the productions of `n`. */
  predicate PredictsSome(n: NonTerm, t: Term) {
    var a := Alternatives(n);
    Predicts(a[0], t) || (|a| > 1 && Predicts(a[1], t)) || (|a| > 2 && Predicts(a[2], t))
  }

  /** The FIRST equations: a terminal begins `n` exactly when it predicts
      one of `n`'s productions. */
  lemma FirstIsFixpoint(n: NonTerm, t: Term)
    ensures t in First(n) <==> PredictsSome(n, t)
  {
    match n
    case SelectQuery => SelectQueryFixpoint(t);
    case SelectClause => SelectClauseFixpoint(t);
    case SelectExpr => SelectExprFixpoint(t);
    case FromClause => FromClauseFixpoint(t);
    case FromExpr => FromExprFixpoint(t);
    case WhereOption => WhereOptionFixpoint(t);
    case WhereClause => WhereClauseFixpoint(t);
    case SkipOption => SkipOptionFixpoint(t);
    case LimitOption => LimitOptionFixpoint(t);
    case WhereExpr => WhereExprFixpoint(t);
  }

  lemma SelectQueryFixpoint(t: Term)
    ensures t in First(SelectQuery) <==> PredictsSome(SelectQuery, t)
  {
  }

  lemma SelectClauseFixpoint(t: Term)
    ensures t in First(SelectClause) <==> PredictsSome(SelectClause, t)
  {
  }

  lemma SelectExprFixpoint(t: Term)
    ensures t in First(SelectExpr) <==> PredictsSome(SelectExpr, t)
  {
  }

  lemma FromClauseFixpoint(t: Term)
    ensures t in First(FromClause) <==> PredictsSome(FromClause, t)
  {
  }

  lemma FromExprFixpoint(t: Term)
    ensures t in First(FromExpr) <==> PredictsSome(FromExpr, t)
  {
  }

  lemma WhereOptionFixpoint(t: Term)
    ensures t in First(WhereOption) <==> PredictsSome(WhereOption, t)
  {
  }

  lemma WhereClauseFixpoint(t: Term)
    ensures t in First(WhereClause) <==> PredictsSome(WhereClause, t)
  {
  }

  lemma SkipOptionFixpoint(t: Term)
    ensures t in First(SkipOption) <==> PredictsSome(SkipOption, t)
  {
  }

  lemma LimitOptionFixpoint(t: Term)
    ensures t in First(LimitOption) <==> PredictsSome(LimitOption, t)
  {
  }

  lemma WhereExprFixpoint(t: Term)
    ensures t in First(WhereExpr) <==> PredictsSome(WhereExpr, t)
  {
  }

  /** Decreases along productions whose right-hand side starts with a
      nonterminal (7, 11, 14, 18). */
  function Rank(n: NonTerm): nat {
    match n
    case FromExpr => 4
    case WhereOption => 3
    case WhereExpr => 3
    case SkipOption => 2
    case _ => 1
  }

  /** No production starts with its own nonterminal or one that leads back
      to it, so the grammar has no left recursion. */
  lemma LeftmostAcyclic(p: nat)
    requires p < ProductionCount
    ensures var r := Rhs(Intended, p);
      r != [] && r[0].N? ==> Rank(r[0].nonterm) < Rank(Lhs(p))
  {
  }

  /** Row `n` is right at column `t`: the cell holds `UNK` or a production of
      `n` that `t` predicts, and every production of `n` that `t` predicts is
      in the cell. */
  predicate CellIsLL1(n: NonTerm, t: Term) {
    var c := GetCase(N(n), T(t)).value;
    && (c == UNK as int || (0 <= c < ProductionCount && Lhs(c) == n && Predicts(c, t)))
    && forall p | p in Alternatives(n) :: Predicts(p, t) ==> c == p
  }

  /** The table is the grammar's LL(1) table: every cell holds `UNK` or a
      production of its row's nonterminal that its column's terminal
      predicts, and every production a terminal predicts sits in that
      terminal's cell of the production's row, so no two productions of one
      nonterminal compete for a lookahead. */
  lemma TableIsLL1(n: NonTerm, t: Term)
    ensures CellIsLL1(n, t)
  {
    match n
    case SelectQuery => RowSelectQuery(t);
    case SelectClause => RowSelectClause(t);
    case SelectExpr => RowSelectExpr(t);
    case FromClause => RowFromClause(t);
    case FromExpr => RowFromExpr(t);
    case WhereOption => RowWhereOption(t);
    case WhereClause => RowWhereClause(t);
    case SkipOption => RowSkipOption(t);
    case LimitOption => RowLimitOption(t);
    case WhereExpr => RowWhereExpr(t);
  }

  lemma RowSelectQuery(t: Term)
    ensures CellIsLL1(SelectQuery, t)
  {
  }

  lemma RowSelectClause(t: Term)
    ensures CellIsLL1(SelectClause, t)
  {
  }

  lemma RowSelectExpr(t: Term)
    ensures CellIsLL1(SelectExpr, t)
  {
  }

  lemma RowFromClause(t: Term)
    ensures CellIsLL1(FromClause, t)
  {
  }

  lemma RowFromExpr(t: Term)
    ensures CellIsLL1(FromExpr, t)
  {
  }

  lemma RowWhereOption(t: Term)
    ensures CellIsLL1(WhereOption, t)
  {
  }

  lemma RowWhereClause(t: Term)
    ensures CellIsLL1(WhereClause, t)
  {
  }

  lemma RowSkipOption(t: Term)
    ensures CellIsLL1(SkipOption, t)
  {
  }

  lemma RowLimitOption(t: Term)
    ensures CellIsLL1(LimitOption, t)
  {
  }

  lemma RowWhereExpr(t: Term)
    ensures CellIsLL1(WhereExpr, t)
  {
  }

  /** Production `p` is predicted exactly by the lookaheads whose cell in
      `p`'s row holds `p`. */
  lemma PredictedInCell(p: nat, t: Term)
    requires p < ProductionCount
    ensures Predicts(p, t) <==> GetCase(N(Lhs(p)), T(t)) == Some(p)
  {
    AlternativesComplete(p);
    TableIsLL1(Lhs(p), t);
  }
}
