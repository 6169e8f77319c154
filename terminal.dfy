/** The `Terminal` enum of the keyword scanner and `getTerminal`, which skips
    spaces on a `CharArrayIterator` and classifies the keyword found there. */
module Terminals {
  import opened Wrappers
  import opened Cursor

  /** Terminal and nonterminal symbols of the older grammar, with the codes
      that index `LegacyParseTable`. */
  datatype Terminal =
    | TsSelect | TsFrom | TsWhere | TsSkip | TsLimit | TsAnd | TsEnd | TsUnknown
    | NtsSelectQuery | NtsWhereClause | NtsWhereExpr | NtsSkipClause | NtsLimitClause
  {
    function Value(): int {
      match this
      case TsSelect => 0
      case TsFrom => 1
      case TsWhere => 2
      case TsSkip => 3
      case TsLimit => 4
      case TsAnd => 5
      case TsEnd => 6
      case TsUnknown => -1
      case NtsSelectQuery => 0
      case NtsWhereClause => 1
      case NtsWhereExpr => 2
      case NtsSkipClause => 3
      case NtsLimitClause => 4
    }

    predicate IsTerminal() {
      !(NtsSelectQuery? || NtsWhereClause? || NtsWhereExpr? || NtsSkipClause? || NtsLimitClause?)
    }
  }

  /** Within each kind the codes tell the symbols apart: terminals use
      0..6 (and -1 for `TS_UNKNOWN`), nonterminals 0..4. */
  lemma ValueCodes(a: Terminal, b: Terminal)
    ensures a.IsTerminal() ==> -1 <= a.Value() <= 6
    ensures !a.IsTerminal() ==> 0 <= a.Value() <= 4
    ensures a.IsTerminal() == b.IsTerminal() && a.Value() == b.Value() ==> a == b
  {
  }

  /** "Can't parse '<shown>' at position <position>". */
  datatype LexError = CannotParse(shown: Option<char>, position: int)

  /** Index of the first non-space character at or after `p`, or the end. */
  function SkipSpaces(text: seq<char>, p: nat): (q: nat)
    requires p <= |text|
    ensures p <= q <= |text|
    ensures forall i :: p <= i < q ==> text[i] == ' '
    ensures q < |text| ==> text[q] != ' '
    decreases |text| - p
  {
    if p < |text| && text[p] == ' ' then SkipSpaces(text, p + 1) else p
  }

  /** How many leading characters of `rest` the text repeats from `from` on. */
  function Matched(text: seq<char>, from: nat, rest: string): (m: nat)
    ensures m <= |rest|
    decreases |rest|
  {
    if rest == [] || from >= |text| || text[from] != rest[0] then 0
    else 1 + Matched(text, from + 1, rest[1..])
  }

  lemma {:induction false} MatchedStep(text: seq<char>, from: nat, rest: string, i: nat)
    requires i < |rest| && Matched(text, from, rest) >= i
    ensures Matched(text, from, rest) > i <==> from + i < |text| && text[from + i] == rest[i]
    decreases i
  {
    if i > 0 {
      MatchedStep(text, from + 1, rest[1..], i - 1);
    }
  }

  /** The whole of `rest` is matched exactly when it occurs at `from`. */
  lemma {:induction false} MatchedAll(text: seq<char>, from: nat, rest: string)
    requires from <= |text|
    ensures Matched(text, from, rest) == |rest| <==> from + |rest| <= |text| && text[from..from + |rest|] == rest
    decreases |rest|
  {
    if rest == [] {
    } else if from < |text| && text[from] == rest[0] {
      MatchedAll(text, from + 1, rest[1..]);
      if from + |rest| <= |text| {
        assert text[from..from + |rest|] == [text[from]] + text[from + 1..from + 1 + |rest[1..]|];
      }
    } else if from + |rest| <= |text| {
      assert text[from..from + |rest|][0] != rest[0];
    }
  }

  function Min(a: int, b: int): int {
    if a <= b then a else b
  }

  /** The outcome of one scan: the classified terminal or the error, and
      where the cursor stands afterwards. */
  datatype Scanned = Scanned(result: Result<Terminal, LexError>, index: int)

  /** The letters after the first one, for the first letters that start
      exactly one keyword (`S` starts two and is dispatched separately). */
  function KeywordTail(c: char): Option<(string, Terminal)> {
    if c == 'A' then Some(("ND", TsAnd))
    else if c == 'F' then Some(("ROM", TsFrom))
    else if c == 'L' then Some(("IMIT", TsLimit))
    else if c == 'O' then Some(("FFSET", TsSkip))
    else if c == 'W' then Some(("HERE", TsWhere))
    else None
  }

  /** Compares `rest` with the characters after index `at`, then checks the
      separator: the next character must be a space or the end. */
  function Finish(text: seq<char>, at: nat, rest: string, t: Terminal, shown: Option<char>): Scanned
    requires at < |text|
  {
    var m := Matched(text, at + 1, rest);
    if m < |rest| then
      var i := Min(at + 1 + m, |text|);
      Scanned(Err(CannotParse(shown, i)), i)
    else
      var s := at + 1 + |rest|;
      if s >= |text| then Scanned(Ok(t), |text|)
      else if text[s] == ' ' then Scanned(Ok(t), s)
      else Scanned(Err(CannotParse(Some(text[s]), s)), s)
  }

  /** What `getTerminal` does to a cursor standing at `p`, as a function of
      the text and `p`. */
  function Scan(text: seq<char>, p: nat): Scanned
    requires p <= |text|
  {
    var q := SkipSpaces(text, p);
    if q == |text| then Scanned(Ok(TsEnd), q)
    else if text[q] == 'S' then
      var second := CharAt(text, q + 1);
      if second == Some('E') then Finish(text, q + 1, "LECT", TsSelect, second)
      else if second == Some('K') then Finish(text, q + 1, "IP", TsSkip, second)
      else Scanned(Err(CannotParse(second, q + 1)), q + 1)
    else
      match KeywordTail(text[q])
      case Some((rest, t)) => Finish(text, q, rest, t, Some(text[q]))
      case None => Scanned(Err(CannotParse(Some(text[q]), q)), q)
  }

  /** The exact keyword spellings and the terminal each one stands for. */
  function KeywordSymbol(w: string): Option<Terminal> {
    if w == "SELECT" then Some(TsSelect)
    else if w == "FROM" then Some(TsFrom)
    else if w == "WHERE" then Some(TsWhere)
    else if w == "AND" then Some(TsAnd)
    else if w == "LIMIT" then Some(TsLimit)
    else if w == "SKIP" || w == "OFFSET" then Some(TsSkip)
    else None
  }

  /** The chained `iterator.next() == c && ...` comparisons: advances over
      the characters of `rest` one by one and stops at the first mismatch. */
  method NextMatches(it: CharArrayIterator, rest: string) returns (ok: bool)
    requires it.Valid() && it.pos < |it.chars|
    modifies it`pos
    ensures it.Valid()
    ensures ok <==> Matched(it.chars, old(it.pos) + 1, rest) == |rest|
    ensures ok ==> it.pos == old(it.pos) + |rest| < |it.chars|
    ensures !ok ==> it.pos == Min(old(it.pos) + 1 + Matched(it.chars, old(it.pos) + 1, rest), |it.chars|)
  {
    ghost var p0 := it.pos;
    ok := true;
    var i := 0;
    while ok && i < |rest|
      invariant it.Valid() && 0 <= i <= |rest|
      invariant ok ==> Matched(it.chars, p0 + 1, rest) >= i && it.pos == p0 + i < |it.chars|
      invariant !ok ==> 0 < i && Matched(it.chars, p0 + 1, rest) == i - 1 && it.pos == Min(p0 + i, |it.chars|)
    {
      var c := it.Next();
      MatchedStep(it.chars, p0 + 1, rest, i);
      ok := c == Some(rest[i]);
      i := i + 1;
    }
  }

  /** The part of `getTerminal` after the first letter(s) of a keyword:
      the remaining letters one by one, then the separator check. The cursor
      stands on the last letter already matched; `shown` is the character the
      source reports when the letters do not match. */
  method MatchTail(it: CharArrayIterator, rest: string, t: Terminal, shown: Option<char>)
    returns (r: Result<Terminal, LexError>)
    requires it.Valid() && it.pos < |it.chars|
    modifies it`pos
    ensures it.Valid()
    ensures Scanned(r, it.pos) == Finish(it.chars, old(it.pos), rest, t, shown)
  {
    var ok := NextMatches(it, rest);
    if !ok {
      return Err(CannotParse(shown, it.GetIndex()));
    }
    var value := it.Next();
    if value == Some(' ') || value == None {
      return Ok(t);
    }
    return Err(CannotParse(value, it.GetIndex()));
  }

  /** `Terminal.getTerminal`: skips spaces, matches one keyword letter by
      letter and checks that a space or the end follows it. */
  method GetTerminal(it: CharArrayIterator) returns (r: Result<Terminal, LexError>)
    requires it.Valid()
    modifies it`pos
    ensures it.Valid()
    ensures Scanned(r, it.pos) == Scan(it.chars, old(it.pos))
  {
    ghost var p0 := it.pos;
    var value := it.Current();
    while value == Some(' ')
      invariant it.Valid() && p0 <= it.pos
      invariant SkipSpaces(it.chars, it.pos) == SkipSpaces(it.chars, p0)
      invariant value == it.Current()
      decreases |it.chars| - it.pos
    {
      value := it.Next();
    }
    assert it.pos == SkipSpaces(it.chars, p0);
    match value
    case None =>
      r := Ok(TsEnd);
    case Some(c) =>
      if c == 'S' {
        value := it.Next();
        if value == Some('E') {
          r := MatchTail(it, "LECT", TsSelect, value);
        } else if value == Some('K') {
          r := MatchTail(it, "IP", TsSkip, value);
        } else {
          r := Err(CannotParse(value, it.GetIndex()));
        }
      } else {
        match KeywordTail(c)
        case Some((rest, t)) =>
          r := MatchTail(it, rest, t, value);
        case None =>
          r := Err(CannotParse(value, it.GetIndex()));
      }
  }

  /** A full match of the remaining letters leaves only the separator check. */
  lemma FinishMatches(text: seq<char>, at: nat, rest: string, t: Terminal, shown: Option<char>)
    requires at + 1 + |rest| <= |text| && text[at + 1..at + 1 + |rest|] == rest
    ensures var e := at + 1 + |rest|;
      Finish(text, at, rest, t, shown) ==
        if e == |text| || text[e] == ' ' then Scanned(Ok(t), e)
        else Scanned(Err(CannotParse(Some(text[e]), e)), e)
  {
    MatchedAll(text, at + 1, rest);
  }

  /** A successful finish has matched every letter and stands on a separator. */
  lemma FinishSound(text: seq<char>, at: nat, rest: string, t: Terminal, shown: Option<char>)
    requires at < |text|
    ensures var f := Finish(text, at, rest, t, shown);
      f.result.Ok? ==>
        && f.result.value == t
        && f.index == at + 1 + |rest| <= |text|
        && text[at + 1..f.index] == rest
        && (f.index == |text| || text[f.index] == ' ')
  {
    MatchedAll(text, at + 1, rest);
  }

  /** Spaces, then an exact keyword spelling: the scanner returns that
      keyword's terminal and leaves the cursor on the character after it,
      provided that character is a space or the end; any other character
      there is reported at its own position. */
  lemma ScanKeyword(text: seq<char>, p: nat, w: string)
    requires p <= |text| && KeywordSymbol(w).Some?
    requires SkipSpaces(text, p) + |w| <= |text|
    requires text[SkipSpaces(text, p)..SkipSpaces(text, p) + |w|] == w
    ensures var e := SkipSpaces(text, p) + |w|;
      Scan(text, p) ==
        if e == |text| || text[e] == ' ' then Scanned(Ok(KeywordSymbol(w).value), e)
        else Scanned(Err(CannotParse(Some(text[e]), e)), e)
  {
    var q := SkipSpaces(text, p);
    assert text[q] == text[q..q + |w|][0] == w[0];
    if w[0] == 'S' {
      ScanKeywordS(text, q, w);
    } else {
      ScanKeywordOther(text, q, w);
    }
  }

  lemma ScanKeywordS(text: seq<char>, q: nat, w: string)
    requires KeywordSymbol(w).Some? && w[0] == 'S'
    requires q + |w| <= |text| && text[q..q + |w|] == w
    ensures var e := q + |w|;
      Finish(text, q + 1, w[2..], KeywordSymbol(w).value, CharAt(text, q + 1)) ==
        if e == |text| || text[e] == ' ' then Scanned(Ok(KeywordSymbol(w).value), e)
        else Scanned(Err(CannotParse(Some(text[e]), e)), e)
    ensures CharAt(text, q + 1) == Some(w[1]) && (w[1] == 'E' <==> w == "SELECT")
    ensures w == "SELECT" ==> w[2..] == "LECT"
    ensures w != "SELECT" ==> w[1] == 'K' && w[2..] == "IP"
  {
    assert text[q + 1] == text[q..q + |w|][1];
    assert text[q + 2..q + |w|] == w[2..];
    FinishMatches(text, q + 1, w[2..], KeywordSymbol(w).value, CharAt(text, q + 1));
  }

  lemma ScanKeywordOther(text: seq<char>, q: nat, w: string)
    requires KeywordSymbol(w).Some? && w[0] != 'S'
    requires q + |w| <= |text| && text[q..q + |w|] == w
    ensures KeywordTail(w[0]) == Some((w[1..], KeywordSymbol(w).value))
    ensures var e := q + |w|;
      Finish(text, q, w[1..], KeywordSymbol(w).value, Some(text[q])) ==
        if e == |text| || text[e] == ' ' then Scanned(Ok(KeywordSymbol(w).value), e)
        else Scanned(Err(CannotParse(Some(text[e]), e)), e)
  {
    assert text[q + 1..q + |w|] == w[1..];
    FinishMatches(text, q, w[1..], KeywordSymbol(w).value, Some(text[q]));
  }

  /** Conversely, every successful scan is `TS_END` at the end of the text or
      an exact keyword spelling between the skipped spaces and the new cursor
      position, followed by a space or the end. */
  lemma ScanSound(text: seq<char>, p: nat)
    requires p <= |text|
    ensures var s := Scan(text, p); var q := SkipSpaces(text, p);
      s.result.Ok? ==>
        if q == |text| then s == Scanned(Ok(TsEnd), q)
        else
          && q < s.index <= |text|
          && KeywordSymbol(text[q..s.index]) == Some(s.result.value)
          && (s.index == |text| || text[s.index] == ' ')
  {
    var q := SkipSpaces(text, p);
    if q < |text| {
      if text[q] == 'S' {
        ScanSoundS(text, q);
      } else {
        ScanSoundOther(text, q);
      }
    }
  }

  lemma ScanSoundS(text: seq<char>, q: nat)
    requires q < |text| && text[q] == 'S'
    ensures var s := Scan(text, q);
      s.result.Ok? ==>
        && q < s.index <= |text|
        && KeywordSymbol(text[q..s.index]) == Some(s.result.value)
        && (s.index == |text| || text[s.index] == ' ')
  {
    var s := Scan(text, q);
    if s.result.Ok? {
      assert q + 1 < |text|;
      if text[q + 1] == 'E' {
        assert s == Finish(text, q + 1, "LECT", TsSelect, Some('E'));
        SecondLetterSound(text, q, "SELECT", TsSelect);
      } else {
        assert s == Finish(text, q + 1, "IP", TsSkip, Some('K'));
        SecondLetterSound(text, q, "SKIP", TsSkip);
      }
    }
  }

  /** A keyword told apart by its first two letters, finished successfully,
      is spelled exactly between `q` and the new cursor position. */
  lemma SecondLetterSound(text: seq<char>, q: nat, w: string, t: Terminal)
    requires |w| >= 2 && q + 1 < |text| && text[q] == w[0] && text[q + 1] == w[1]
    requires KeywordSymbol(w) == Some(t)
    ensures var f := Finish(text, q + 1, w[2..], t, Some(w[1]));
      f.result.Ok? ==>
        && q < f.index <= |text|
        && KeywordSymbol(text[q..f.index]) == Some(f.result.value)
        && (f.index == |text| || text[f.index] == ' ')
  {
    var f := Finish(text, q + 1, w[2..], t, Some(w[1]));
    FinishSound(text, q + 1, w[2..], t, Some(w[1]));
    if f.result.Ok? {
      SpellingAt(text, q, f.index, w, 2);
    }
  }

  lemma ScanSoundOther(text: seq<char>, q: nat)
    requires q < |text| && text[q] != 'S' && text[q] != ' '
    ensures var s := Scan(text, q);
      s.result.Ok? ==>
        && q < s.index <= |text|
        && KeywordSymbol(text[q..s.index]) == Some(s.result.value)
        && (s.index == |text| || text[s.index] == ' ')
  {
    var s := Scan(text, q);
    if s.result.Ok? {
      var tail := KeywordTail(text[q]).value;
      assert s == Finish(text, q, tail.0, tail.1, Some(text[q]));
      FinishSound(text, q, tail.0, tail.1, Some(text[q]));
      SpellingAt(text, q, s.index, [text[q]] + tail.0, 1);
      KeywordTailSpells(text[q]);
    }
  }

  /** Each first letter and its tail spell the keyword of the tail's terminal. */
  lemma KeywordTailSpells(c: char)
    requires KeywordTail(c).Some?
    ensures KeywordSymbol([c] + KeywordTail(c).value.0) == Some(KeywordTail(c).value.1)
  {
    if c == 'A' {
      assert [c] + "ND" == "AND";
    } else if c == 'F' {
      assert [c] + "ROM" == "FROM";
    } else if c == 'L' {
      assert [c] + "IMIT" == "LIMIT";
    } else if c == 'O' {
      assert [c] + "FFSET" == "OFFSET";
    } else {
      assert [c] + "HERE" == "WHERE";
    }
  }

  /** A spelling whose first `k` letters stand at `q` and whose other
      letters stand right after them occupies `text[q..e]`. */
  lemma SpellingAt(text: seq<char>, q: nat, e: nat, w: string, k: nat)
    requires k <= |w| && q + |w| == e <= |text|
    requires forall i :: 0 <= i < k ==> text[q + i] == w[i]
    requires text[q + k..e] == w[k..]
    ensures text[q..e] == w
  {
    assert forall i :: 0 <= i < |w| ==> text[q..e][i] == w[i] by {
      forall i | 0 <= i < |w| ensures text[q..e][i] == w[i] {
        if i >= k {
          assert text[q + k..e][i - k] == w[k..][i - k];
        }
      }
    }
  }

  /** `getTerminal` never answers `TS_UNKNOWN`: every result it returns is a
      terminal whose code is a column of `LegacyParseTable`. */
  lemma ScanNeverUnknown(text: seq<char>, p: nat)
    requires p <= |text|
    ensures var s := Scan(text, p);
      s.result.Ok? ==> s.result.value.IsTerminal() && 0 <= s.result.value.Value() <= 6
  {
    ScanSound(text, p);
  }

  /** A first character that begins no keyword is reported where it stands. */
  lemma ScanRejectsOtherStart(text: seq<char>, p: nat)
    requires p <= |text|
    requires SkipSpaces(text, p) < |text| && text[SkipSpaces(text, p)] !in "AFLOSW"
    ensures var q := SkipSpaces(text, p);
      Scan(text, p) == Scanned(Err(CannotParse(Some(text[q]), q)), q)
  {
  }

  // The cases of the scanner's unit tests, run on a fresh cursor.

  method SelectWithWhitespaces() returns (r: Result<Terminal, LexError>)
    ensures r == Ok(TsSelect)
  {
    var it := new CharArrayIterator("   SELECT");
    r := GetTerminal(it);
    ScanKeyword("   SELECT", 0, "SELECT");
  }

  method SkipAndOffsetWithWhitespaces() returns (skip: Result<Terminal, LexError>, offset: Result<Terminal, LexError>)
    ensures skip == Ok(TsSkip) && offset == Ok(TsSkip)
  {
    var a := new CharArrayIterator("   SKIP");
    skip := GetTerminal(a);
    ScanKeyword("   SKIP", 0, "SKIP");
    var b := new CharArrayIterator("   OFFSET");
    offset := GetTerminal(b);
    ScanKeyword("   OFFSET", 0, "OFFSET");
  }

  method UnknownTerminal() returns (r: Result<Terminal, LexError>)
    ensures r == Err(CannotParse(Some('U'), 3))
  {
    var it := new CharArrayIterator("   UNKNOWN");
    r := GetTerminal(it);
  }

  method BadSelect() returns (r: Result<Terminal, LexError>)
    ensures r == Err(CannotParse(Some('E'), 7))
  {
    var it := new CharArrayIterator("   SELETC");
    r := GetTerminal(it);
  }

  method NoWhitespaceBetweenTerminalAndExpression() returns (r: Result<Terminal, LexError>)
    ensures r == Err(CannotParse(Some('*'), 6))
  {
    var it := new CharArrayIterator("SELECT*");
    r := GetTerminal(it);
    ScanKeyword("SELECT*", 0, "SELECT");
  }
}
