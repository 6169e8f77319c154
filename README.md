# sqlForMongoDB in Dafny

A model of the core of sqlForMongoDB, which translates a small SQL subset
(`SELECT … FROM … [WHERE …] [SKIP|OFFSET n] [LIMIT n]`) into a MongoDB shell
command such as `db.customers.find({age: {$gt: 22}}).limit(10)`. The model
covers these parts:

- **Spans (`CharsMapping`).** An (offset, length, isNumber) reference into
  the query text. `Spans.Text` is the text a span denotes.
- **The cursor (`CharArrayIterator`).** A class with a `pos` field kept
  inside `[begin, end]`. Reading outside `[begin, end)` yields the `DONE`
  sentinel, modelled as `None`.
- **The keyword scanner (`Terminal`, `getTerminal`).**
  - `GetTerminal` is a method that moves the cursor.
  - It is proved equal to the pure function `Terminals.Scan`.
  - `Scan` is proved sound and complete against the keyword spellings.
- **Both parse tables.**
  - The older table is 5×7 over the `Terminal` enum.
  - The newer table is 10×13 for the 19-production grammar.
  - The newer table is proved to be exactly the LL(1) table of that grammar.
    The FIRST sets are written out as constants. `FirstIsFixpoint` shows they
    solve the FIRST equations, and `LeftmostAcyclic` shows the grammar has no
    left recursion, so no other sets solve them.
- **`Translator.translate`.**
  - The table-driven stack machine is a `while` loop (`Drive`, `Pass`) over
    two stacks.
  - It is proved against the step function `Translator.Step` and the run
    function `Translator.Run`.
  - Whatever the parser accepts, the terminals it consumed form a sentence
    of the grammar, once the first two findings below are repaired
    (`Translator.RunSound`).
  - As written, the loop ends as soon as the expected stack empties, so
    input after `LIMIT n` is never read (third finding). The corrected
    `translate` checks that END follows. It accepts only whole inputs that
    are sentences (`Translator.TranslateSound`).
- **`MongoShellBuilder`.**
  - A class whose setters assign fields and whose `addWhereExpression`
    merges constraints on the same variable.
  - `build` drains the queues in loops.
  - Every method is proved against a value model, `MongoShell.Query`, and
    its rendering, `MongoShell.Render`.
  - The client calls are a `BuilderCalls.Call` list.
  - The expected strings of the translator's tests are proved as lemmas
    over those calls.

## Model

| member | source | states |
|---|---|---|
| Spans.NewCharsMapping | src/main/java/CharsMapping.java:8-15 | the span starts at `startIdx` and its end index is `endIdx` |
| Spans.NewCharsMappingValid | src/main/java/CharsMapping.java:8-12 | a constructed span lies in a text of length n exactly when `0 <= startIdx <= endIdx <= n` |
| Cursor.CharArrayIterator.constructor | src/CharArrayIterator.java:10-19 | the cursor covers the whole buffer and stands at 0, and the invariant `begin <= pos <= end` holds |
| Cursor.CharArrayIterator.Current | src/CharArrayIterator.java:59-65 | a character exactly when `pos < end`, namely `chars[pos]`, otherwise DONE |
| Cursor.CharArrayIterator.First | src/CharArrayIterator.java:29-32 | moves to `begin` and answers the character there |
| Cursor.CharArrayIterator.Last | src/CharArrayIterator.java:42-49 | moves to `end - 1`, or to `end` for an empty text; answers DONE exactly for the empty text |
| Cursor.CharArrayIterator.Next | src/CharArrayIterator.java:77-85 | advances one step, or parks at `end` and answers DONE when at or past the last character |
| Cursor.CharArrayIterator.Previous | src/CharArrayIterator.java:96-103 | steps back and answers that character, or stays at `begin` and answers DONE |
| Cursor.CharArrayIterator.SetIndex | src/CharArrayIterator.java:115-121 | a position outside `[begin, end]` is refused and leaves `pos` unchanged; otherwise moves there and answers the character (DONE exactly at `end`) |
| Cursor.CharArrayIterator.GetBeginIndex | src/CharArrayIterator.java:129-131 | the begin index is 0 |
| Cursor.CharArrayIterator.GetEndIndex | src/CharArrayIterator.java:140-142 | the end index is the buffer length |
| Cursor.CharArrayIterator.GetIndex | src/CharArrayIterator.java:150-152 | the position lies in `[0, length]` (the class invariant) |
| Cursor.StepPastEndAndBack | src/CharArrayIterator.java:77-103 | `next()` from the last character answers DONE, and `previous()` then answers the last character again |
| Terminals.ValueCodes | src/Terminal.java:3-27 | terminal codes are -1..6 and nonterminal codes 0..4, and codes are distinct within each kind |
| Terminals.SkipSpaces | src/Terminal.java:30-33 | the index of the first non-space character at or after p, skipping only spaces |
| Terminals.GetTerminal | src/Terminal.java:29-90 | the method's result and final cursor position are exactly `Scan` of the text at the old position |
| Terminals.MatchedAll | src/Terminal.java:36-73 | the chained character comparisons succeed exactly when the keyword's remaining letters occur at that position |
| Terminals.FinishSound | src/Terminal.java:84-89 | a successful keyword match has matched every letter and stands on a space or the end of the text |
| Terminals.ScanKeyword | src/Terminal.java:29-89 | spaces then an exact keyword spelling followed by a space or the end yield that keyword's terminal (OFFSET yields `TS_SKIP`) |
| Terminals.ScanSound | src/Terminal.java:29-89 | conversely, every successful scan is `TS_END` at the end of the text or a keyword spelled exactly after the spaces and followed by a separator |
| Terminals.KeywordTailSpells | src/Terminal.java:36-73 | each first letter and the letters compared after it spell the keyword of the terminal it yields |
| Terminals.ScanNeverUnknown | src/Terminal.java:29-90 | `getTerminal` never returns `TS_UNKNOWN` |
| Terminals.ScanRejectsOtherStart | src/Terminal.java:76-82 | a first character that begins no keyword is reported with its own position |
| Terminals.SelectWithWhitespaces | src/test/java/TerminalTest.java:10-13 | `"   SELECT"` scans as `TS_SELECT` |
| Terminals.SkipAndOffsetWithWhitespaces | src/test/java/TerminalTest.java:34-39 | SKIP and OFFSET with surrounding spaces both scan as `TS_SKIP` |
| Terminals.UnknownTerminal | src/test/java/TerminalTest.java:48-51 | `"   UNKNOWN"` is rejected at index 3, its first character |
| Terminals.BadSelect | src/test/java/TerminalTest.java:54-57 | `"   SELETC"` is rejected at index 7, the first letter that differs from SELECT |
| Terminals.NoWhitespaceBetweenTerminalAndExpression | src/test/java/TerminalTest.java:60-63 | `"SELECT*"` is rejected at the `*`, index 6 |
| LegacyParseTable.GetCase | src/main/java/ParseTable.java:12-17 | a cell is found exactly when the row code is below 5 and the column code below 7; otherwise the index is out of bounds |
| LegacyParseTable.GetCaseDefinedForScannedTerminals | src/main/java/ParseTable.java:4-17 | every nonterminal paired with every terminal the scanner can return is a cell of the table |
| LegacyParseTable.Cells | src/main/java/ParseTable.java:4-10 | the cells row by row, and the FROM column is empty throughout |
| Grammar.Codes | src/ParseTable.java:4-15 | terminal codes are the 13 columns and nonterminal codes the 10 rows, each injective |
| Grammar.ExpansionReversesRhs | src/Translator.java:47-142 | every case of the switch pushes the right-hand side of its production in reverse order, leftmost symbol on top |
| Grammar.NoEndInExpansions | src/Translator.java:47-142 | no case pushes the end marker |
| ParseTable.GetCase | src/ParseTable.java:17-22 | a cell is found exactly when the row code is below 10 and the column code below 13; otherwise the index is out of bounds |
| ParseTable.Alternatives | src/Translator.java:5-27 | each nonterminal's productions, all with that nonterminal as left-hand side |
| ParseTable.AlternativesComplete | src/Translator.java:5-27 | every production is among its left-hand side's alternatives |
| ParseTable.FirstIsFixpoint | src/Translator.java:5-27 | the FIRST sets satisfy the FIRST equations: a terminal begins a nonterminal exactly when it predicts one of its productions |
| ParseTable.LeftmostAcyclic | src/Translator.java:5-27 | no production's leading nonterminal leads back to its left-hand side (no left recursion), so the FIRST sets are unique |
| ParseTable.TableIsLL1 | src/ParseTable.java:4-15 | every cell holds `UNK` or a production of its row that its column predicts, and every predicted production sits in its cell |
| ParseTable.PredictedInCell | src/ParseTable.java:4-15 | a production is predicted by a terminal exactly when that terminal's cell in its row holds it |
| Translator.Expand | src/Translator.java:45-146 | the replacement of an unmatched top never contains the end marker |
| Translator.ExpandPredicted | src/Translator.java:45-146 | for either grammar, a nonterminal on top expands exactly when the lookahead predicts one of its productions; the replacement is then that production's right-hand side reversed, and otherwise the pass fails with no production |
| Translator.Step | src/Translator.java:39-147 | one pass keeps the stacks well formed: one lookahead while symbols are expected, and it is the last terminal read |
| Translator.Pass | src/Translator.java:39-147 | the loop body computes exactly `Step` on the two stacks |
| Translator.Translate | src/Translator.java:30-149 | the method's outcome is `Run` from `Init`, followed for the corrected parser by the end-of-input check of `Finish` |
| Translator.Finish | src/Translator.java:23-24 | the source's parser keeps the run's outcome; the corrected one accepts only when END follows the consumed terminals, and otherwise rejects the terminal that does |
| Translator.Drive | src/Translator.java:38-148 | the `while` loop's outcome is `Run` from its starting state |
| Translator.RunFuelMonotone | src/Translator.java:38-148 | more passes do not change a run that already ended |
| Translator.DerivableStep | src/Translator.java:5-27 | one derivation step from a derivable form gives a derivable form |
| Translator.StepFollows | src/Translator.java:39-146 | with mismatches rejected, every pass keeps matched terminals plus the stack a sentential form of the grammar |
| Translator.MatchFollows | src/Translator.java:39-44 | matching a terminal keeps the parser on its derivation |
| Translator.ExpandIsProduction | src/Translator.java:45-146 | an expansion of the corrected parser applies a production of the nonterminal on top |
| Translator.ExpansionDerives | src/Translator.java:47-142 | pushing an expansion is one leftmost derivation step |
| Translator.ProductionFollows | src/Translator.java:45-146 | replacing the top by a production of it keeps the parser on its derivation |
| Translator.EmptyStackDerives | src/Translator.java:38 | an empty stack on a derivation has derived exactly the matched terminals |
| Translator.RunKeeps | src/Translator.java:38-148 | a state property every pass preserves holds where the run accepts |
| Translator.RunSound | src/Translator.java:38-148 | from any state on a derivation, when the corrected loop accepts, the terminals it consumed form a sentence of the grammar |
| Translator.TranslateSound | src/Translator.java:30-149 | when the corrected `translate` accepts, the consumed terminals form a sentence and END follows them; an input without END tokens is then consumed whole and is a sentence |
| TranslatorTests.SelectAnyFromWhereOneExpression | src/test/java/TranslatorTest.java:8-12 | both drivers accept the eight terminals of `SELECT * FROM customers WHERE age > 22` |
| TranslatorTests.SelectAnyFromWhereTwoExpressions | src/test/java/TranslatorTest.java:16-21 | the source's driver finds no production after AND; the corrected one accepts two conditions |
| TranslatorTests.LimitTakesCondition | src/Translator.java:39-46 | the source's driver accepts `LIMIT age > 5`; the corrected one rejects the mismatch |
| TranslatorTests.SelectAnyFromWhereCompareTwoVariables | src/test/java/TranslatorTest.java:119-122 | the source's driver leaves the table's bounds; the corrected one rejects the mismatch |
| TranslatorTests.SelectAnyWhereWithBadLogic | src/test/java/TranslatorTest.java:100 | a query without FROM is rejected by both drivers |
| TranslatorTests.LimitIgnoresTrailing | src/Translator.java:126-130 | both loops stop after `SELECT * FROM s LIMIT 10` with two names unread; the source's `translate` accepts, the corrected one rejects the next NAME |
| MongoShell.Operator | src/main/java/MongoShellBuilder.java:10-21 | each compare sign renders as a three-letter `$` operator |
| MongoShell.OperatorInjective | src/main/java/MongoShellBuilder.java:10-21 | different signs render as different operators |
| MongoShell.WhereExpression.AddConstraint | src/main/java/MongoShellBuilder.java:33-39 | the sign and the value join the back of their queues, nothing else changes, and the queues stay the same length |
| MongoShell.IndexOfVariable | src/main/java/MongoShellBuilder.java:103-113 | the first entry whose variable has the same text, or none if no entry has it |
| MongoShell.AddWhere | src/main/java/MongoShellBuilder.java:97-122 | spans stay in the text, and the list grows by at most one entry |
| MongoShell.AddWhereVariables | src/main/java/MongoShellBuilder.java:97-122 | variables stay distinct and in first-seen order: a known variable leaves them unchanged, a new one is appended |
| MongoShell.AddWhereConstraints | src/main/java/MongoShellBuilder.java:97-122 | the new constraint is appended to its own variable's constraints and no other variable's constraints change |
| MongoShell.PairsAddConstraint | src/main/java/MongoShellBuilder.java:33-39 | `addConstraint` appends exactly the new (sign, value) pair |
| MongoShell.JoinSplit | src/main/java/MongoShellBuilder.java:171-183 | a join is its first part followed by each other part after `, ` |
| MongoShell.MongoShellBuilder.constructor | src/main/java/MongoShellBuilder.java:58-66 | an empty buffer over the text and nothing collected |
| MongoShell.MongoShellBuilder.SetSelectAll | src/main/java/MongoShellBuilder.java:68-70 | sets the select-all flag and nothing else |
| MongoShell.MongoShellBuilder.AddSelectField | src/main/java/MongoShellBuilder.java:72-84 | fails after select-all, fails on a number, and otherwise appends the field |
| MongoShell.MongoShellBuilder.SetFromDatabaseName | src/main/java/MongoShellBuilder.java:86-95 | fails if already set or if the span has 64 characters or more, and otherwise sets it |
| MongoShell.MongoShellBuilder.SetSkipValue | src/main/java/MongoShellBuilder.java:124-136 | fails if already set or not a number, and otherwise sets it |
| MongoShell.MongoShellBuilder.SetLimitValue | src/main/java/MongoShellBuilder.java:138-150 | fails if already set or not a number, and otherwise sets it |
| MongoShell.MongoShellBuilder.FindExpression | src/main/java/MongoShellBuilder.java:103-113 | the search loop finds the first entry with the same variable text, or none |
| MongoShell.MongoShellBuilder.AddWhereExpression | src/main/java/MongoShellBuilder.java:97-122 | the list becomes `AddWhere` of the old list, and variables stay distinct |
| MongoShell.MongoShellBuilder.BuildWhereExpression | src/main/java/MongoShellBuilder.java:152-169 | appends `var: {op: value, ...}` while emptying both queues |
| MongoShell.MongoShellBuilder.BuildWhere | src/main/java/MongoShellBuilder.java:171-183 | appends every entry's rendering, joined by `, `, and drains the entries |
| MongoShell.MongoShellBuilder.BuildEachWhere | src/main/java/MongoShellBuilder.java:179-182 | the loop appends `, ` and each remaining entry |
| MongoShell.MongoShellBuilder.BuildSelect | src/main/java/MongoShellBuilder.java:185-200 | appends `, {f: 1, ...}` when fields are set and nothing otherwise |
| MongoShell.MongoShellBuilder.AppendOption | src/main/java/MongoShellBuilder.java:213-223 | appends `.skip(n)` or `.limit(n)` only when the value is set |
| MongoShell.MongoShellBuilder.AppendQuery | src/main/java/MongoShellBuilder.java:206-224 | appends the find call, the projection, the skip and then the limit |
| MongoShell.MongoShellBuilder.Build | src/main/java/MongoShellBuilder.java:202-226 | fails and changes nothing without a collection and a projection; otherwise returns exactly `Render` of the collected query |
| BuilderCalls.Step | src/main/java/MongoShellBuilder.java:68-150 | a successful call keeps spans in the text, and only a condition changes the where list |
| BuilderCalls.Replay | src/main/java/MongoShellBuilder.java:68-150 | a successful call sequence keeps spans in the text |
| BuilderCalls.ReplaySnoc | src/main/java/MongoShellBuilder.java:68-150 | replaying one more call is one more `Step` after the earlier ones |
| BuilderCalls.ReplayStops | src/main/java/MongoShellBuilder.java:68-150 | once a prefix of the calls fails, the whole sequence fails the same way |
| BuilderCalls.Perform | src/main/java/MongoShellBuilder.java:68-150 | one call on the builder object does what `Step` says, or throws its error |
| BuilderCalls.PerformAll | src/main/java/MongoShellBuilder.java:68-150 | the calls on the builder object do what `Replay` says |
| BuilderCalls.Run | src/main/java/MongoShellBuilder.java:58-226 | a new builder, the calls, then `build` return exactly `Output` |
| BuilderTests.SelectAnyFromWhereOneExpression | src/test/java/TranslatorTest.java:8-12 | gives `db.customers.find({age: {$gt: 22}})` |
| BuilderTests.SelectAnyFromWhereFourExpression | src/test/java/TranslatorTest.java:16-21 | gives `db.customers.find({age: {$gt: 22, $ne: 25}, purchases: {$eq: 2}, id: {$lt: 5}})` |
| BuilderTests.SelectOneFieldFrom | src/test/java/TranslatorTest.java:36-39 | gives `db.collection.find({}, {name: 1})` |
| BuilderTests.SelectThreeFieldsFrom | src/test/java/TranslatorTest.java:44-47 | gives `db.collection.find({}, {name: 1, surname: 1, patronymic: 1})` |
| BuilderTests.SelectAnyFromOffsetLimit | src/test/java/TranslatorTest.java:52-55 | gives `db.collection.find({}).skip(5).limit(10)` |
| BuilderTests.SelectAnyFromSkipLimit | src/test/java/TranslatorTest.java:60-63 | gives `db.collection.find({}).skip(5).limit(10)` |
| BuilderTests.SelectAnyFromLimit | src/test/java/TranslatorTest.java:68-71 | gives `db.sales.find({}).limit(10)` |
| BuilderTests.SelectAnyFromWhereSkipLimitWithWhitespaces | src/test/java/TranslatorTest.java:92-95 | gives `db.s.find({age: {$gt: 25}}).skip(5).limit(10)` |
| BuilderTests.SelectAnyWhereWithBadLogic | src/test/java/TranslatorTest.java:100 | without FROM, `build` fails with the not-enough-input error |

## Left out

- Console output: the `System.out.println` trace of `translate` and `main` are not modelled. Both are I/O.
- The semantic actions between the parser and the builder are not modelled. The newer `Terminal` enum and its `toTerminal` lexer, which `Translator.java` calls, are not part of this model either.
  - The translator works on a given terminal sequence. Its codes follow the column and row layout of the newer table.
  - The builder is driven by an explicit list of calls (`BuilderCalls.Call`), one per clause of each test query.
- Exceptions are modelled as error values.
  - `NullPointerException` paths are left out: Dafny values cannot be null.
  - Exception message texts are not modelled.
- MongoShell.MongoShellBuilder.SetLimitValue: the source reports a non-numeric LIMIT with the skip/offset message. The model only distinguishes the error kind (`LimitNotNumber`).
- MongoShell.MongoShellBuilder.SetFromDatabaseName: like the source, it does not reject a numeric collection span.
- MongoShell.MongoShellBuilder.SetSelectAll: like the source, it does not check for fields already added. Only `addSelectField` checks order.
- MongoShell.MongoShellBuilder.Build: a second `build` call on the same builder is not modelled, because `Valid` requires an empty buffer. The source would append to the first result.
- MongoShell.WhereExpression: the builder holds its where expressions by value in a `seq` field and replaces them on update and when `build` drains them.
  - The source mutates the objects' queues in place.
  - The objects never leave the builder, so there is no aliasing to observe.
- Terminals.GetTerminal: `DONE` is `None`, distinct from every character. In the source `DONE` is the character U+FFFF, so that character in a query would read as the end of the text.
- Integer width: spans, positions and codes are unbounded integers. The source's 32-bit `int` overflow and `byte` casts only matter for inputs beyond 2^31 characters, which are not modelled.
- Spans must lie within the text (`ValidIn`): the builder's `Valid` and the call lists require it. The source would throw `ArrayIndexOutOfBoundsException` when rendering a span that does not.
- Translator.Translate: the loop runs under a `fuel` bound. `OutOfFuel` means only that the bound was reached. `RunFuelMonotone` shows that more fuel does not change a finished run.
- Translator.TranslateSound: only soundness of the corrected parser is proved, not completeness (that every sentence is accepted). Completeness is shown only for the concrete test queries.
- Translator.RunSound: it covers only the consumed terminals. The source's loop never reads past the point where the stack empties, so input left after it is not checked; only the corrected `translate` (`Finish`) checks it.
- `TranslatorTest.java:24-32` (operands written before the variable) has no builder test. The translator's grammar gives no builder call for it, and the semantic actions are not modelled.
- `CharArrayIterator.clone` is not modelled: it copies the object and nothing in the core calls it.

## Findings

| source | as written | input that shows it | evidently intended | confidence | as-written member | corrected member |
|---|---|---|---|---|---|---|
| src/Translator.java:39-46 | when the top of the expected stack is a terminal different from the lookahead, it is popped and passed to `getCase` as a row code anyway | `SELECT * FROM s LIMIT age > 5` is accepted: NUMBER expected with NAME seen selects production 9. `SELECT * FROM s WHERE age = number` indexes past the table's rows | a terminal mismatch is a syntax error | not executed | TranslatorTests.LimitTakesCondition, TranslatorTests.SelectAnyFromWhereCompareTwoVariables | Translator.TranslateSound |
| src/Translator.java:134-138 | production 17 is `WHERE_EXPR -> "AND" WHERE_EXPR`, so after AND only another AND or the end of the conditions is allowed | `SELECT * FROM customers WHERE age > 22 AND id < 5` is rejected with no production for WHERE_EXPR on NAME, although the test at src/test/java/TranslatorTest.java:16-21 expects such queries to translate | `WHERE_EXPR -> "AND" WHERE_CLAUSE` | not executed | TranslatorTests.SelectAnyFromWhereTwoExpressions | Translator.TranslateSound |
| src/Translator.java:126-130 | productions 15 and 16 end the expected stack at `LIMIT n` or at the end of the options, and the loop stops once the stack is empty without reading the next terminal, although the grammar writes `$` there | `SELECT * FROM s LIMIT 10 x y` is accepted after six terminals | the query must end where the grammar writes `$` | not executed | TranslatorTests.LimitIgnoresTrailing | Translator.TranslateSound |
