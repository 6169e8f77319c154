/** `Translator.translate`: the table-driven stack machine that checks a
    query's terminal sequence against the grammar. The stack of expected
    symbols is a sequence whose last element is the top; the stack of actual
    symbols is the one-symbol lookahead slot. */
module Translator {
  import opened Wrappers
  import opened Grammar
  import opened ParseTable

  /** The terminal the lexer yields at index `i` of the input; past the end
      it keeps yielding END. */
  function Read(tokens: seq<Term>, i: nat): (t: Term)
    ensures i < |tokens| ==> t == tokens[i]
    ensures i >= |tokens| ==> t == End
  {
    if i < |tokens| then tokens[i] else End
  }

  /** The two stacks and how many terminals have been read. */
  datatype Config = Config(expected: seq<Symbol>, actual: seq<Symbol>, read: nat)

  /** Why `translate` stops without accepting. `IndexOutOfBounds` is the
      `ArrayIndexOutOfBoundsException` of `getCase` on a row code of 10 or
      more, `NoProduction` the `IllegalArgumentException` of the switch's
      default case, `Mismatch` the rejection of a terminal on top of the
      stack that differs from the lookahead, `TrailingInput` the rejection of
      a terminal left after the stack has emptied. */
  datatype Failure =
    | IndexOutOfBounds(top: Symbol, lookahead: Symbol)
    | NoProduction(top: Symbol, lookahead: Symbol)
    | Mismatch(top: Symbol, lookahead: Symbol)
    | TrailingInput(lookahead: Symbol)

  /** `Accepted(k)`: the stack emptied after the first `k` terminals were
      matched. */
  datatype Outcome = Accepted(consumed: nat) | Rejected(failure: Failure) | OutOfFuel

  /** What the loop consults: whether a terminal on top of the stack that
      differs from the lookahead is sent to the table as written or rejected,
      and the parse table itself. */
  datatype Driver = Driver(version: Version, table: seq<seq<Byte>>)

  /** The corrected parser over `ParseTable.Table`. */
  const Corrected := Driver(Intended, Table)

  /** The state before the loop: `SELECT_QUERY` expected, one terminal read. */
  function Init(tokens: seq<Term>): (c: Config)
    ensures c.expected == [N(SelectQuery)] && c.actual == [T(Read(tokens, 0))] && c.read == 1
  {
    Config([N(SelectQuery)], [T(Read(tokens, 0))], 1)
  }

  /** The lookahead slot holds one symbol while symbols are expected, none
      once the stack is empty, and it holds the last terminal read. */
  predicate Wf(tokens: seq<Term>, c: Config) {
    && |c.actual| <= 1
    && (c.expected != [] ==> |c.actual| == 1)
    && (|c.actual| == 1 ==> c.read >= 1 && c.actual[0] == T(Read(tokens, c.read - 1)))
    && c.read - |c.actual| <= |tokens|
    && T(End) !in c.expected
  }

  /** The symbol pushed last. */
  function Top(s: seq<Symbol>): Symbol
    requires s != []
  {
    s[|s| - 1]
  }

  function Pop(s: seq<Symbol>): seq<Symbol>
    requires s != []
  {
    s[..|s| - 1]
  }

  /** What an unmatched top of the stack is replaced with: the symbols of
      the production in the table cell, or why there are none. */
  function Expand(drv: Driver, top: Symbol, look: Symbol): (r: Result<seq<Symbol>, Failure>)
    ensures r.Ok? ==> T(End) !in r.value
  {
    if drv.version == Intended && top.T? then
      Err(Mismatch(top, look))
    else
      match CaseIn(drv.table, top, look)
      case None => Err(IndexOutOfBounds(top, look))
      case Some(p) =>
        if 0 <= p < ProductionCount then
          NoEndInExpansions(drv.version, p);
          Ok(Expansion(drv.version, p))
        else Err(NoProduction(top, look))
  }

  /** One pass of the loop body; it keeps the lookahead slot and the stack
      well formed. */
  function Step(drv: Driver, tokens: seq<Term>, c: Config): (r: Result<Config, Failure>)
    requires Wf(tokens, c) && c.expected != []
    ensures r.Ok? ==> Wf(tokens, r.value)
  {
    var top := Top(c.expected);
    var look := c.actual[0];
    var rest := Pop(c.expected);
    if top == look then
      if rest != [] then Ok(Config(rest, [T(Read(tokens, c.read))], c.read + 1))
      else Ok(Config(rest, [], c.read))
    else
      match Expand(drv, top, look)
      case Err(f) => Err(f)
      case Ok(pushed) => Ok(Config(rest + pushed, c.actual, c.read))
  }

  /** The loop, run for at most `fuel` passes. */
  function Run(drv: Driver, tokens: seq<Term>, c: Config, fuel: nat): Outcome
    requires Wf(tokens, c)
    decreases fuel
  {
    if c.expected == [] then Accepted(c.read - |c.actual|)
    else if fuel == 0 then OutOfFuel
    else
      match Step(drv, tokens, c)
      case Err(f) => Rejected(f)
      case Ok(c') => Run(drv, tokens, c', fuel - 1)
  }

  /** A pass whose top of stack is the lookahead pops both and reads the
      next terminal unless the stack is now empty. */
  lemma StepMatches(drv: Driver, tokens: seq<Term>, c: Config)
    requires Wf(tokens, c) && c.expected != [] && Top(c.expected) == c.actual[0]
    ensures Step(drv, tokens, c) ==
      if Pop(c.expected) != [] then Ok(Config(Pop(c.expected), [T(Read(tokens, c.read))], c.read + 1))
      else Ok(Config(Pop(c.expected), [], c.read))
  {
  }

  /** Any other pass replaces the top of the stack as `Expand` says. */
  lemma StepExpands(drv: Driver, tokens: seq<Term>, c: Config)
    requires Wf(tokens, c) && c.expected != [] && Top(c.expected) != c.actual[0]
    ensures Step(drv, tokens, c) ==
      match Expand(drv, Top(c.expected), c.actual[0])
      case Err(f) => Err(f)
      case Ok(pushed) => Ok(Config(Pop(c.expected) + pushed, c.actual, c.read))
  {
  }

  /** A pass that fails ends the run with its failure. */
  lemma RunFails(drv: Driver, tokens: seq<Term>, c: Config, fuel: nat, f: Failure)
    requires Wf(tokens, c) && c.expected != [] && fuel > 0 && Step(drv, tokens, c) == Err(f)
    ensures Run(drv, tokens, c, fuel) == Rejected(f)
  {
  }

  /** A pass that succeeds leaves the rest of the run to the next state. */
  lemma RunContinues(drv: Driver, tokens: seq<Term>, c: Config, fuel: nat, c': Config, fuel': nat)
    requires Wf(tokens, c) && c.expected != [] && fuel == fuel' + 1 && Step(drv, tokens, c) == Ok(c')
    ensures Wf(tokens, c') && Run(drv, tokens, c, fuel) == Run(drv, tokens, c', fuel')
  {
  }

  /** One pass of the `while` loop of `translate` on the two stacks. */
  method Pass(drv: Driver, tokens: seq<Term>, expected: seq<Symbol>, actual: seq<Symbol>, read: nat)
    returns (expected': seq<Symbol>, actual': seq<Symbol>, read': nat, failure: Option<Failure>)
    requires Wf(tokens, Config(expected, actual, read)) && expected != []
    ensures failure.Some? ==> Step(drv, tokens, Config(expected, actual, read)) == Err(failure.value)
    ensures failure.None? ==> Step(drv, tokens, Config(expected, actual, read)) == Ok(Config(expected', actual', read'))
  {
    var top := expected[|expected| - 1];
    var look := actual[|actual| - 1];
    if top == look {
      StepMatches(drv, tokens, Config(expected, actual, read));
      actual' := actual[..|actual| - 1];
      expected' := expected[..|expected| - 1];
      read' := read;
      if expected' != [] {
        actual' := actual' + [T(Read(tokens, read))];
        read' := read + 1;
      }
      assert actual' == [] || actual' == [T(Read(tokens, read))];
      failure := None;
    } else {
      StepExpands(drv, tokens, Config(expected, actual, read));
      expected' := expected[..|expected| - 1];
      actual', read' := actual, read;
      var pushed := Expand(drv, top, look);
      if pushed.Err? {
        failure := Some(pushed.error);
      } else {
        expected' := expected' + pushed.value;
        failure := None;
      }
    }
  }

  /** What `translate` reports once the loop has ended. As written it
      stops as soon as the stack is empty; the corrected parser also reads
      the next terminal and demands END, the `$` that closes productions 15
      and 16. */
  function Finish(drv: Driver, tokens: seq<Term>, o: Outcome): (r: Outcome)
    ensures drv.version == AsWritten ==> r == o
    ensures r.Accepted? ==> r == o && (drv.version == Intended ==> Read(tokens, r.consumed) == End)
    ensures o.Accepted? && !r.Accepted? ==> r == Rejected(TrailingInput(T(Read(tokens, o.consumed))))
  {
    if drv.version == Intended && o.Accepted? && Read(tokens, o.consumed) != End then
      Rejected(TrailingInput(T(Read(tokens, o.consumed))))
    else o
  }

  /** `translate` on a terminal sequence, stopping after `fuel` passes:
      the stacks start as `Init` has them, `Drive` runs the loop and the
      corrected parser then checks for the end of the input. */
  method Translate(drv: Driver, tokens: seq<Term>, fuel: nat) returns (r: Outcome)
    ensures r == Finish(drv, tokens, Run(drv, tokens, Init(tokens), fuel))
  {
    var expectedSymbolStack := [N(SelectQuery)];
    var actualSymbolStack := [T(Read(tokens, 0))];
    r := Drive(drv, tokens, expectedSymbolStack, actualSymbolStack, 1, fuel);
    if drv.version == Intended && r.Accepted? {
      var next := Read(tokens, r.consumed);
      if next != End {
        r := Rejected(TrailingInput(T(next)));
      }
    }
  }

  /** The `while` loop of `translate`, from any well-formed state. */
  method Drive(drv: Driver, tokens: seq<Term>, expected0: seq<Symbol>, actual0: seq<Symbol>, read0: nat, fuel: nat)
    returns (r: Outcome)
    requires Wf(tokens, Config(expected0, actual0, read0))
    ensures r == Run(drv, tokens, Config(expected0, actual0, read0), fuel)
  {
    var expected: seq<Symbol>, actual: seq<Symbol>, read: nat := expected0, actual0, read0;
    var left: nat := fuel;
    while expected != []
      invariant Wf(tokens, Config(expected, actual, read))
      invariant Run(drv, tokens, Config(expected, actual, read), left) == Run(drv, tokens, Config(expected0, actual0, read0), fuel)
      decreases left
    {
      if left == 0 {
        return OutOfFuel;
      }
      ghost var before := Config(expected, actual, read);
      var failure;
      expected, actual, read, failure := Pass(drv, tokens, expected, actual, read);
      if failure.Some? {
        RunFails(drv, tokens, before, left, failure.value);
        return Rejected(failure.value);
      }
      left := left - 1;
      RunContinues(drv, tokens, before, left + 1, Config(expected, actual, read), left);
    }
    return Accepted(read - |actual|);
  }

  /** More passes do not change a run that ended within fewer. */
  lemma {:induction false} RunFuelMonotone(drv: Driver, tokens: seq<Term>, c: Config, fuel: nat, more: nat)
    requires Wf(tokens, c) && fuel <= more && Run(drv, tokens, c, fuel) != OutOfFuel
    ensures Run(drv, tokens, c, more) == Run(drv, tokens, c, fuel)
    decreases fuel
  {
    if c.expected != [] {
      var s := Step(drv, tokens, c);
      if s.Err? {
        RunFails(drv, tokens, c, fuel, s.error);
        RunFails(drv, tokens, c, more, s.error);
      } else {
        RunContinues(drv, tokens, c, fuel, s.value, fuel - 1);
        RunContinues(drv, tokens, c, more, s.value, more - 1);
        RunFuelMonotone(drv, tokens, s.value, fuel - 1, more - 1);
      }
    }
  }

  /** How many terminals the state has matched. */
  function Matched(c: Config): int {
    c.read - |c.actual|
  }

  /** A sentential form derivable from `SELECT_QUERY`. */
  ghost predicate Derivable(v: Version, form: seq<Symbol>) {
    exists d :: IsDerivation(v, d) && d[|d| - 1] == form
  }

  lemma DerivableStep(v: Version, a: seq<Symbol>, b: seq<Symbol>)
    requires Derivable(v, a) && DerivesInOneStep(v, a, b)
    ensures Derivable(v, b)
  {
    var d :| IsDerivation(v, d) && d[|d| - 1] == a;
    var d' := d + [b];
    forall k: nat | k < |d'| - 1
      ensures DerivesAt(v, d', k)
    {
      if k < |d| - 1 {
        assert DerivesAt(v, d, k);
        assert d'[k] == d[k] && d'[k + 1] == d[k + 1];
      }
    }
    assert IsDerivation(v, d');
  }

  /** The terminals matched so far followed by the expected stack read from
      the top down form a sentential form of the grammar: a leftmost
      derivation the parser is following. */
  ghost predicate Follows(v: Version, tokens: seq<Term>, c: Config)
    requires Wf(tokens, c)
  {
    Derivable(v, Terminals(tokens[..Matched(c)]) + Reverse(c.expected))
  }

  /** With mismatches rejected, every pass keeps the parser on a leftmost
      derivation: a match moves a terminal from the stack to the matched
      prefix, an expansion applies the production the table names, which by
      `TableIsLL1` belongs to the nonterminal on top. */
  lemma StepFollows(tokens: seq<Term>, c: Config, c': Config)
    requires Wf(tokens, c) && c.expected != [] && Follows(Intended, tokens, c)
    requires Step(Corrected, tokens, c) == Ok(c')
    ensures Wf(tokens, c') && Follows(Intended, tokens, c')
  {
    if Top(c.expected) == c.actual[0] {
      StepMatches(Corrected, tokens, c);
      MatchFollows(tokens, c, c');
    } else {
      StepExpands(Corrected, tokens, c);
      var e := Expand(Corrected, Top(c.expected), c.actual[0]);
      var p := ExpandIsProduction(Top(c.expected), c.actual[0], e.value);
      ProductionFollows(tokens, c, p);
    }
  }

  lemma MatchFollows(tokens: seq<Term>, c: Config, c': Config)
    requires Wf(tokens, c) && c.expected != [] && Follows(Intended, tokens, c)
    requires Top(c.expected) == c.actual[0]
    requires c'.expected == Pop(c.expected) && Wf(tokens, c') && Matched(c') == Matched(c) + 1
    ensures Follows(Intended, tokens, c')
  {
    var m := Matched(c);
    assert Top(c.expected) == T(tokens[m]);
    assert c.expected == Pop(c.expected) + [T(tokens[m])];
    MatchedForm(tokens, m, Pop(c.expected));
  }

  /** Moving the top terminal to the matched prefix keeps the form. */
  lemma MatchedForm(w: seq<Term>, m: nat, rest: seq<Symbol>)
    requires m < |w|
    ensures Terminals(w[..m + 1]) + Reverse(rest) == Terminals(w[..m]) + Reverse(rest + [T(w[m])])
  {
    ReverseAppend(rest, [T(w[m])]);
    assert Reverse([T(w[m])]) == [T(w[m])];
    assert w[..m + 1][..m] == w[..m];
  }

  /** An expansion the corrected parser performs applies a production of the
      nonterminal on top. */
  lemma ExpandIsProduction(top: Symbol, look: Symbol, pushed: seq<Symbol>) returns (p: nat)
    requires look.T? && Expand(Corrected, top, look) == Ok(pushed)
    ensures p < ProductionCount && GetCase(top, look) == Some(p)
    ensures top == N(Lhs(p)) && pushed == Expansion(Intended, p)
  {
    p := GetCase(top, look).value;
    TableIsLL1(top.nonterm, look.term);
  }

  /** Pushing a production's expansion in place of its nonterminal is one
      derivation step on the form read from the top of the stack down. */
  lemma ExpansionDerives(v: Version, prefix: seq<Symbol>, rest: seq<Symbol>, p: nat)
    requires p < ProductionCount
    ensures DerivesInOneStep(v, prefix + Reverse(rest + [N(Lhs(p))]), prefix + Reverse(rest + Expansion(v, p)))
  {
    var before := prefix + Reverse(rest + [N(Lhs(p))]);
    var after := prefix + Reverse(rest + Expansion(v, p));
    ReverseAppend(rest, [N(Lhs(p))]);
    assert Reverse([N(Lhs(p))]) == [N(Lhs(p))];
    ExpansionReversesRhs(v, p);
    ReverseReverse(Rhs(v, p));
    ReverseAppend(rest, Expansion(v, p));
    var i := |prefix|;
    assert before == prefix + [N(Lhs(p))] + Reverse(rest);
    assert after == prefix + Rhs(v, p) + Reverse(rest);
    assert before[i] == N(Lhs(p)) && before[..i] == prefix && before[i + 1..] == Reverse(rest);
  }

  /** Replacing the nonterminal on top of a stack that follows a derivation
      by the expansion of one of its productions keeps it on the derivation. */
  lemma ProductionFollows(tokens: seq<Term>, c: Config, p: nat)
    requires p < ProductionCount && Wf(tokens, c) && Follows(Intended, tokens, c)
    requires c.expected != [] && Top(c.expected) == N(Lhs(p))
    requires Wf(tokens, Config(Pop(c.expected) + Expansion(Intended, p), c.actual, c.read))
    ensures Follows(Intended, tokens, Config(Pop(c.expected) + Expansion(Intended, p), c.actual, c.read))
  {
    var rest := Pop(c.expected);
    assert c.expected == rest + [N(Lhs(p))];
    var prefix := Terminals(tokens[..Matched(c)]);
    ExpansionDerives(Intended, prefix, rest, p);
    DerivableStep(Intended, prefix + Reverse(c.expected), prefix + Reverse(rest + Expansion(Intended, p)));
  }

  /** A parser state with an empty expected stack that follows a derivation
      has derived exactly the terminals it matched. */
  lemma EmptyStackDerives(tokens: seq<Term>, c: Config)
    requires Wf(tokens, c) && Follows(Intended, tokens, c) && c.expected == []
    ensures 0 <= Matched(c) <= |tokens| && InLanguage(Intended, tokens[..Matched(c)])
  {
    assert Terminals(tokens[..Matched(c)]) + Reverse(c.expected) == Terminals(tokens[..Matched(c)]);
  }

  /** An outcome that, if it accepts, accepts a query of the grammar. */
  ghost predicate SoundOutcome(tokens: seq<Term>, o: Outcome) {
    o.Accepted? ==> o.consumed <= |tokens| && InLanguage(Intended, tokens[..o.consumed])
  }

  /** A property of parser states that every successful pass preserves
      holds of the state in which the run accepts. */
  lemma {:induction false} RunKeeps(drv: Driver, tokens: seq<Term>, c: Config, fuel: nat, inv: Config -> bool)
    returns (last: Config)
    requires Wf(tokens, c) && inv(c)
    requires forall c1 :: (Wf(tokens, c1) && c1.expected != [] && inv(c1) && Step(drv, tokens, c1).Ok?) ==>
      inv(Step(drv, tokens, c1).value)
    ensures Run(drv, tokens, c, fuel).Accepted? ==>
      Wf(tokens, last) && last.expected == [] && inv(last) && Matched(last) == Run(drv, tokens, c, fuel).consumed
    decreases fuel
  {
    last := c;
    if c.expected != [] && fuel > 0 {
      var s := Step(drv, tokens, c);
      if s.Err? {
        RunFails(drv, tokens, c, fuel, s.error);
      } else {
        RunContinues(drv, tokens, c, fuel, s.value, fuel - 1);
        last := RunKeeps(drv, tokens, s.value, fuel - 1, inv);
      }
    }
  }

  lemma RunSound(tokens: seq<Term>, c: Config, fuel: nat)
    requires Wf(tokens, c) && Follows(Intended, tokens, c)
    ensures SoundOutcome(tokens, Run(Corrected, tokens, c, fuel))
  {
    forall c1 | Wf(tokens, c1) && c1.expected != [] && Follows(Intended, tokens, c1) && Step(Corrected, tokens, c1).Ok?
      ensures Follows(Intended, tokens, Step(Corrected, tokens, c1).value)
    {
      StepFollows(tokens, c1, Step(Corrected, tokens, c1).value);
    }
    var last := RunKeeps(Corrected, tokens, c, fuel, c1 => Wf(tokens, c1) && Follows(Intended, tokens, c1));
    if Run(Corrected, tokens, c, fuel).Accepted? {
      EmptyStackDerives(tokens, last);
    }
  }

  /** The corrected `translate` accepts only queries of the grammar: the
      terminals it matched form a sentence and the lexer reports the end of
      the input right after them, so for a terminal sequence the lexer
      closes with END the whole sequence is that sentence. */
  lemma TranslateSound(tokens: seq<Term>, fuel: nat)
    ensures var o := Finish(Corrected, tokens, Run(Corrected, tokens, Init(tokens), fuel));
      o.Accepted? ==> o.consumed <= |tokens| && InLanguage(Intended, tokens[..o.consumed]) && Read(tokens, o.consumed) == End
    ensures var o := Finish(Corrected, tokens, Run(Corrected, tokens, Init(tokens), fuel));
      o.Accepted? && End !in tokens ==> o.consumed == |tokens| && InLanguage(Intended, tokens)
  {
    var d := [[N(SelectQuery)]];
    assert IsDerivation(Intended, d);
    assert Terminals(tokens[..0]) + Reverse([N(SelectQuery)]) == [N(SelectQuery)];
    RunSound(tokens, Init(tokens), fuel);
    var o := Finish(Corrected, tokens, Run(Corrected, tokens, Init(tokens), fuel));
    if o.Accepted? && End !in tokens {
      assert tokens[..|tokens|] == tokens;
    }
  }

  /** For a nonterminal on top, the newer table expands, in either version,
      exactly when the lookahead predicts one of the nonterminal's
      productions, and then pushes that production's right-hand side
      reversed; otherwise the pass fails with no production. */
  lemma ExpandPredicted(v: Version, n: NonTerm, t: Term)
    ensures Expand(Driver(v, Table), N(n), T(t)).Ok? <==> PredictsSome(n, t)
    ensures PredictsSome(n, t) ==>
      var p := GetCase(N(n), T(t)).value;
      p < ProductionCount && Lhs(p) == n && Predicts(p, t) && Expand(Driver(v, Table), N(n), T(t)) == Ok(Reverse(Rhs(v, p)))
    ensures !PredictsSome(n, t) ==> Expand(Driver(v, Table), N(n), T(t)) == Err(NoProduction(N(n), T(t)))
  {
    Codes(t, t, n, n);
    TableIsLL1(n, t);
    var c := GetCase(N(n), T(t)).value;
    if 0 <= c < ProductionCount && c != UNK as int {
      AlternativesComplete(c);
      ExpansionReversesRhs(v, c);
    }
  }
}
