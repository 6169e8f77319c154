/** The symbols and the 19 productions of the query grammar that the newer
    parse table and the stack-machine translator work with. */
module Grammar {

  datatype Term =
    | Select | Name | From | Comma | Asterisk | Where | Number
    | Skip | Offset | Limit | And | End | Comparator

  datatype NonTerm =
    | SelectQuery | SelectClause | SelectExpr | FromClause | FromExpr
    | WhereOption | WhereClause | SkipOption | LimitOption | WhereExpr

  datatype Symbol = T(term: Term) | N(nonterm: NonTerm)

  /** Column of a terminal in `ParseTable`. */
  function Column(t: Term): nat {
    match t
    case Select => 0
    case Name => 1
    case From => 2
    case Comma => 3
    case Asterisk => 4
    case Where => 5
    case Number => 6
    case Skip => 7
    case Offset => 8
    case Limit => 9
    case And => 10
    case End => 11
    case Comparator => 12
  }

  /** Row of a nonterminal in `ParseTable`. */
  function Row(n: NonTerm): nat {
    match n
    case SelectQuery => 0
    case SelectClause => 1
    case SelectExpr => 2
    case FromClause => 3
    case FromExpr => 4
    case WhereOption => 5
    case WhereClause => 6
    case SkipOption => 7
    case LimitOption => 8
    case WhereExpr => 9
  }

  /** The symbol's `value` field: one code space shared by both kinds. */
  function Value(s: Symbol): nat {
    match s
    case T(t) => Column(t)
    case N(n) => Row(n)
  }

  /** Terminal codes are the 13 columns and nonterminal codes the 10 rows,
      each used once. */
  lemma Codes(a: Term, b: Term, m: NonTerm, n: NonTerm)
    ensures Column(a) < 13 && Row(m) < 10
    ensures Column(a) == Column(b) ==> a == b
    ensures Row(m) == Row(n) ==> m == n
  {
  }

  const ProductionCount: nat := 19

  /** The left-hand side of each production. */
  function Lhs(p: nat): NonTerm
    requires p < ProductionCount
  {
    match p
    case 0 => SelectQuery
    case 1 => SelectClause
    case 2 => SelectExpr
    case 3 => SelectClause
    case 4 => SelectExpr
    case 5 => FromClause
    case 6 => FromExpr
    case 7 => FromExpr
    case 8 => WhereOption
    case 9 => WhereClause
    case 10 => WhereClause
    case 11 => WhereOption
    case 12 => SkipOption
    case 13 => SkipOption
    case 14 => SkipOption
    case 15 => LimitOption
    case 16 => LimitOption
    case 17 => WhereExpr
    case _ => WhereExpr
  }

  /** The grammar as written, or with production 17 continuing with a
      comparison (`WHERE_EXPR -> "AND" WHERE_CLAUSE`), a mismatched
      terminal rejected outright by the driver and the end of the input
      checked once the stack has emptied. */
  datatype Version = AsWritten | Intended

  /** Right-hand sides, leftmost symbol first. The end marker `$` of
      productions 15 and 16 is the end of input, not a symbol. */
  function Rhs(v: Version, p: nat): seq<Symbol>
    requires p < ProductionCount
  {
    match p
    case 0 => [T(Select), N(SelectClause)]
    case 1 => [T(Name), N(SelectExpr)]
    case 2 => [T(Comma), N(SelectClause)]
    case 3 => [T(Asterisk), T(From), N(FromClause)]
    case 4 => [T(From), N(FromClause)]
    case 5 => [T(Name), N(FromExpr)]
    case 6 => [T(Comma), N(FromClause)]
    case 7 => [N(WhereOption)]
    case 8 => [T(Where), N(WhereClause)]
    case 9 => [T(Name), T(Comparator), T(Number), N(WhereExpr)]
    case 10 => [T(Number), T(Comparator), T(Name), N(WhereExpr)]
    case 11 => [N(SkipOption)]
    case 12 => [T(Skip), T(Number), N(LimitOption)]
    case 13 => [T(Offset), T(Number), N(LimitOption)]
    case 14 => [N(LimitOption)]
    case 15 => [T(Limit), T(Number)]
    case 16 => []
    case 17 => if v == Intended then [T(And), N(WhereClause)] else [T(And), N(WhereExpr)]
    case _ => [N(SkipOption)]
  }

  /** What `translate` pushes for each production case, in push order. */
  function Pushes(p: nat): seq<Symbol>
    requires p < ProductionCount
  {
    match p
    case 0 => [N(SelectClause), T(Select)]
    case 1 => [N(SelectExpr), T(Name)]
    case 2 => [N(SelectClause), T(Comma)]
    case 3 => [N(FromClause), T(From), T(Asterisk)]
    case 4 => [N(FromClause), T(From)]
    case 5 => [N(FromExpr), T(Name)]
    case 6 => [N(FromClause), T(Comma)]
    case 7 => [N(WhereOption)]
    case 8 => [N(WhereClause), T(Where)]
    case 9 => [N(WhereExpr), T(Number), T(Comparator), T(Name)]
    case 10 => [N(WhereExpr), T(Name), T(Comparator), T(Number)]
    case 11 => [N(SkipOption)]
    case 12 => [N(LimitOption), T(Number), T(Skip)]
    case 13 => [N(LimitOption), T(Number), T(Offset)]
    case 14 => [N(LimitOption)]
    case 15 => [T(Number), T(Limit)]
    case 16 => []
    case 17 => [N(WhereExpr), T(And)]
    case _ => [N(SkipOption)]
  }

  /** The symbols the driver pushes for production `p` in version `v`. */
  function Expansion(v: Version, p: nat): seq<Symbol>
    requires p < ProductionCount
  {
    if v == Intended && p == 17 then [N(WhereClause), T(And)] else Pushes(p)
  }

  function Reverse<X>(s: seq<X>): (r: seq<X>)
    ensures |r| == |s|
  {
    if s == [] then [] else Reverse(s[1..]) + [s[0]]
  }

  lemma {:induction false} ReverseAppend<X>(a: seq<X>, b: seq<X>)
    ensures Reverse(a + b) == Reverse(b) + Reverse(a)
    decreases |a|
  {
    if a == [] {
      assert a + b == b;
    } else {
      assert (a + b)[1..] == a[1..] + b;
      ReverseAppend(a[1..], b);
    }
  }

  lemma {:induction false} ReverseReverse<X>(s: seq<X>)
    ensures Reverse(Reverse(s)) == s
    decreases |s|
  {
    if s != [] {
      ReverseAppend(Reverse(s[1..]), [s[0]]);
      ReverseReverse(s[1..]);
      assert Reverse([s[0]]) == [s[0]];
    }
  }

  lemma {:induction false} ReverseAt<X>(s: seq<X>, k: nat)
    requires k < |s|
    ensures Reverse(s)[k] == s[|s| - 1 - k]
    decreases |s|
  {
    if k < |s| - 1 {
      ReverseAt(s[1..], k);
    }
  }

  /** Every case of the translator's switch pushes the right-hand side of
      its production in reverse, so that its leftmost symbol ends on top. */
  lemma ExpansionReversesRhs(v: Version, p: nat)
    requires p < ProductionCount
    ensures Expansion(v, p) == Reverse(Rhs(v, p))
  {
    ReverseMirrors(Rhs(v, p));
    if p < 9 {
      ExpansionMirrorsLow(v, p);
    } else {
      ExpansionMirrorsHigh(v, p);
    }
  }

  /** `Reverse` reads a sequence from its last element to its first. */
  lemma ReverseMirrors<X>(s: seq<X>)
    ensures forall k :: 0 <= k < |s| ==> Reverse(s)[k] == s[|s| - 1 - k]
  {
    forall k | 0 <= k < |s| ensures Reverse(s)[k] == s[|s| - 1 - k] {
      ReverseAt(s, k);
    }
  }

  lemma ExpansionMirrorsLow(v: Version, p: nat)
    requires p < 9
    ensures |Expansion(v, p)| == |Rhs(v, p)|
    ensures forall k :: 0 <= k < |Rhs(v, p)| ==> Expansion(v, p)[k] == Rhs(v, p)[|Rhs(v, p)| - 1 - k]
  {
  }

  lemma ExpansionMirrorsHigh(v: Version, p: nat)
    requires 9 <= p < ProductionCount
    ensures |Expansion(v, p)| == |Rhs(v, p)|
    ensures forall k :: 0 <= k < |Rhs(v, p)| ==> Expansion(v, p)[k] == Rhs(v, p)[|Rhs(v, p)| - 1 - k]
  {
  }

  /** No production mentions the END terminal: `$` is never pushed. */
  lemma NoEndInExpansions(v: Version, p: nat)
    requires p < ProductionCount
    ensures T(End) !in Expansion(v, p) && T(End) !in Rhs(v, p)
  {
  }

  /** One derivation step: some nonterminal of the sentential form `a` is
      replaced by the right-hand side of one of its productions. */
  ghost predicate DerivesInOneStep(v: Version, a: seq<Symbol>, b: seq<Symbol>) {
    exists i, p :: 0 <= i < |a| && 0 <= p < ProductionCount && a[i] == N(Lhs(p))
      && b == a[..i] + Rhs(v, p) + a[i + 1..]
  }

  /** Form `k + 1` of the sequence `d` follows from form `k` in one step. */
  ghost predicate DerivesAt(v: Version, d: seq<seq<Symbol>>, k: nat)
    requires k < |d| - 1
  {
    DerivesInOneStep(v, d[k], d[k + 1])
  }

  /** A derivation from `SELECT_QUERY`: the forms it passes through. */
  ghost predicate IsDerivation(v: Version, d: seq<seq<Symbol>>) {
    && |d| >= 1
    && d[0] == [N(SelectQuery)]
    && forall k: nat :: k < |d| - 1 ==> DerivesAt(v, d, k)
  }

  /** Terminals seen as grammar symbols. */
  function Terminals(w: seq<Term>): (s: seq<Symbol>)
    ensures |s| == |w| && forall i :: 0 <= i < |w| ==> s[i] == T(w[i])
  {
    if w == [] then [] else Terminals(w[..|w| - 1]) + [T(w[|w| - 1])]
  }

  /** The language of the grammar: terminal strings derivable from
      `SELECT_QUERY`. */
  ghost predicate InLanguage(v: Version, w: seq<Term>) {
    exists d :: IsDerivation(v, d) && d[|d| - 1] == Terminals(w)
  }
}
