/** `MongoShellBuilder`: collects the parts of a SELECT query as spans of the
    query text and renders them as a MongoDB shell `find` call. The pure part
    (the `Query` value, `AddWhere` and `Render`) is the specification; the
    builder class below is proved against it. */
module MongoShell {
  import opened Wrappers
  import opened Spans

  /** `WhereExpression.CompareSign` with the query operator each one stands for. */
  datatype CompareSign = Equals | Greater | Lower | NonEquals

  function Operator(sign: CompareSign): (op: string)
    ensures |op| == 3 && op[0] == '$'
  {
    match sign
    case Equals => "$eq"
    case Greater => "$gt"
    case Lower => "$lt"
    case NonEquals => "$ne"
  }

  /** Different signs render as different operators, so a rendered constraint
      names its sign unambiguously. */
  lemma OperatorInjective(a: CompareSign, b: CompareSign)
    ensures Operator(a) == Operator(b) <==> a == b
  {
    if a != b {
      assert Operator(a)[1..] != Operator(b)[1..];
    }
  }

  /** The failures the setters and `build` report (the source throws
      `IllegalStateException` or `IllegalArgumentException`). */
  datatype BuilderError =
    | SelectAllAlreadySet    // a field after `setSelectAll`
    | NumberInSelect         // a numeric span as a select field
    | FromAlreadySet
    | FromNameTooLong        // 64 characters or more
    | SkipAlreadySet
    | SkipNotNumber
    | LimitAlreadySet
    | LimitNotNumber
    | NotEnoughInput         // `build` without a collection or without a projection

  /** The limit on collection-name spans: a name must be shorter than this. */
  const MaxNameLength := 64

  // ---------------------------------------------------------------------
  // The specification: values and their rendering

  /** One `WhereExpression`: a variable and its two queues, `signQueue[i]`
      paired with `valueMappingQueue[i]`. The builder holds these by value. */
  datatype WhereExpression = WhereExpression(varMapping: CharsMapping, signQueue: seq<CompareSign>, valueMappingQueue: seq<CharsMapping>)
  {
    /** What the constructor and `addConstraint` keep: both queues equally
        long and never empty. */
    predicate WellFormed() {
      |signQueue| == |valueMappingQueue| >= 1
    }

    predicate ValidIn(n: int) {
      varMapping.ValidIn(n) && forall i :: 0 <= i < |valueMappingQueue| ==> valueMappingQueue[i].ValidIn(n)
    }

    /** `addConstraint`: the pair joins the back of both queues. */
    function AddConstraint(sign: CompareSign, valueMapping: CharsMapping): (r: WhereExpression)
      ensures r.varMapping == varMapping
      ensures |r.signQueue| == |signQueue| + 1 && r.signQueue[..|signQueue|] == signQueue && r.signQueue[|signQueue|] == sign
      ensures |r.valueMappingQueue| == |valueMappingQueue| + 1 && r.valueMappingQueue[..|valueMappingQueue|] == valueMappingQueue
      ensures r.valueMappingQueue[|valueMappingQueue|] == valueMapping
      ensures WellFormed() ==> r.WellFormed()
    {
      WhereExpression(varMapping, signQueue + [sign], valueMappingQueue + [valueMapping])
    }

    /** Both queues emptied, as `build` leaves them. */
    predicate Drained() {
      signQueue == [] && valueMappingQueue == []
    }
  }

  /** Everything `build` reads. */
  datatype Query = Query(
    selectAll: bool,
    fields: seq<CharsMapping>,
    from: Option<CharsMapping>,
    wheres: seq<WhereExpression>,
    skip: Option<CharsMapping>,
    limit: Option<CharsMapping>)
  {
    /** Every span lies inside a text of length `n` and every where entry is well formed. */
    predicate ValidIn(n: int) {
      (forall i :: 0 <= i < |fields| ==> fields[i].ValidIn(n))
      && (from.Some? ==> from.value.ValidIn(n))
      && (forall i :: 0 <= i < |wheres| ==> wheres[i].WellFormed() && wheres[i].ValidIn(n))
      && (skip.Some? ==> skip.value.ValidIn(n))
      && (limit.Some? ==> limit.value.ValidIn(n))
    }

    /** The condition under which `build` renders instead of failing. */
    predicate Ready() {
      from.Some? && (selectAll || fields != [])
    }
  }

  /** Two spans name the same variable when their texts are equal. */
  predicate SameText(text: seq<char>, a: CharsMapping, b: CharsMapping)
    requires a.ValidIn(|text|) && b.ValidIn(|text|)
  {
    Text(text, a) == Text(text, b)
  }

  predicate AllValidIn(ws: seq<WhereExpression>, n: int) {
    forall i :: 0 <= i < |ws| ==> ws[i].WellFormed() && ws[i].ValidIn(n)
  }

  /** No variable text occurs in two entries. */
  predicate DistinctVariables(text: seq<char>, ws: seq<WhereExpression>)
    requires AllValidIn(ws, |text|)
  {
    forall i, j :: 0 <= i < j < |ws| ==> !SameText(text, ws[i].varMapping, ws[j].varMapping)
  }

  /** The position of the first entry whose variable reads like `v`. */
  function IndexOfVariable(text: seq<char>, ws: seq<WhereExpression>, v: CharsMapping): (r: Option<nat>)
    requires AllValidIn(ws, |text|) && v.ValidIn(|text|)
    ensures r.Some? ==> r.value < |ws| && SameText(text, ws[r.value].varMapping, v)
    ensures r.Some? ==> forall j :: 0 <= j < r.value ==> !SameText(text, ws[j].varMapping, v)
    ensures r.None? ==> forall j :: 0 <= j < |ws| ==> !SameText(text, ws[j].varMapping, v)
    decreases |ws|
  {
    if ws == [] then None
    else if SameText(text, ws[0].varMapping, v) then Some(0)
    else match IndexOfVariable(text, ws[1..], v)
      case None => None
      case Some(i) => Some(i + 1)
  }

  /** `addWhereExpression` on values: the constraint joins the entry of the same
      variable, or opens a new entry at the end. */
  function AddWhere(text: seq<char>, ws: seq<WhereExpression>, v: CharsMapping, sign: CompareSign, value: CharsMapping): (r: seq<WhereExpression>)
    requires AllValidIn(ws, |text|) && v.ValidIn(|text|) && value.ValidIn(|text|)
    ensures AllValidIn(r, |text|)
    ensures |r| == |ws| || |r| == |ws| + 1
  {
    match IndexOfVariable(text, ws, v)
    case Some(i) => ws[i := ws[i].AddConstraint(sign, value)]
    case None => ws + [WhereExpression(v, [sign], [value])]
  }

  /** The constraints recorded for the variable named `name`, in arrival order. */
  function ConstraintsOf(text: seq<char>, ws: seq<WhereExpression>, name: seq<char>): (cs: seq<(CompareSign, seq<char>)>)
    requires AllValidIn(ws, |text|)
    decreases |ws|
  {
    if ws == [] then []
    else if Text(text, ws[0].varMapping) == name then
      Pairs(text, ws[0])
    else ConstraintsOf(text, ws[1..], name)
  }

  /** The (sign, value text) pairs of one entry. */
  function Pairs(text: seq<char>, w: WhereExpression): (ps: seq<(CompareSign, seq<char>)>)
    requires w.WellFormed() && w.ValidIn(|text|)
    ensures |ps| == |w.signQueue|
    ensures forall i :: 0 <= i < |ps| ==> ps[i] == (w.signQueue[i], Text(text, w.valueMappingQueue[i]))
  {
    seq(|w.signQueue|, i requires 0 <= i < |w.signQueue| => (w.signQueue[i], Text(text, w.valueMappingQueue[i])))
  }

  /** The variable texts in order of first appearance. */
  function Variables(text: seq<char>, ws: seq<WhereExpression>): (vs: seq<seq<char>>)
    requires AllValidIn(ws, |text|)
    ensures |vs| == |ws|
    ensures forall i :: 0 <= i < |ws| ==> vs[i] == Text(text, ws[i].varMapping)
  {
    seq(|ws|, i requires 0 <= i < |ws| => Text(text, ws[i].varMapping))
  }

  /** Adding a constraint keeps the variables distinct and in first-seen order:
      the list grows by the new variable exactly when it was not there. */
  lemma {:induction false} AddWhereVariables(text: seq<char>, ws: seq<WhereExpression>, v: CharsMapping, sign: CompareSign, value: CharsMapping)
    requires AllValidIn(ws, |text|) && v.ValidIn(|text|) && value.ValidIn(|text|)
    requires DistinctVariables(text, ws)
    ensures DistinctVariables(text, AddWhere(text, ws, v, sign, value))
    ensures Text(text, v) in Variables(text, ws) ==>
      Variables(text, AddWhere(text, ws, v, sign, value)) == Variables(text, ws)
    ensures Text(text, v) !in Variables(text, ws) ==>
      Variables(text, AddWhere(text, ws, v, sign, value)) == Variables(text, ws) + [Text(text, v)]
  {
    var r := AddWhere(text, ws, v, sign, value);
    match IndexOfVariable(text, ws, v)
    case Some(i) =>
      assert Variables(text, r) == Variables(text, ws);
    case None =>
      assert Text(text, v) !in Variables(text, ws);
      assert Variables(text, r) == Variables(text, ws) + [Text(text, v)];
  }

  /** Adding a constraint appends it to the constraints of its own variable and
      leaves every other variable's constraints as they were. */
  lemma {:induction false} AddWhereConstraints(text: seq<char>, ws: seq<WhereExpression>, v: CharsMapping, sign: CompareSign, value: CharsMapping, name: seq<char>)
    requires AllValidIn(ws, |text|) && v.ValidIn(|text|) && value.ValidIn(|text|)
    requires DistinctVariables(text, ws)
    ensures ConstraintsOf(text, AddWhere(text, ws, v, sign, value), name) ==
      if name == Text(text, v) then ConstraintsOf(text, ws, name) + [(sign, Text(text, value))]
      else ConstraintsOf(text, ws, name)
    decreases |ws|
  {
    var r := AddWhere(text, ws, v, sign, value);
    if ws == [] {
      assert r == [WhereExpression(v, [sign], [value])];
      assert Pairs(text, r[0]) == [(sign, Text(text, value))];
    } else if SameText(text, ws[0].varMapping, v) {
      assert IndexOfVariable(text, ws, v) == Some(0);
      assert r[1..] == ws[1..];
      PairsAddConstraint(text, ws[0], sign, value);
      if name != Text(text, v) {
        assert ConstraintsOf(text, r, name) == ConstraintsOf(text, ws[1..], name);
      }
    } else {
      assert DistinctVariables(text, ws[1..]);
      AddWhereConstraints(text, ws[1..], v, sign, value, name);
      AddWhereSkips(text, ws, v, sign, value);
    }
  }

  /** A constraint whose variable differs from the first entry's leaves that
      entry in front and goes to the rest. */
  lemma AddWhereSkips(text: seq<char>, ws: seq<WhereExpression>, v: CharsMapping, sign: CompareSign, value: CharsMapping)
    requires AllValidIn(ws, |text|) && v.ValidIn(|text|) && value.ValidIn(|text|)
    requires ws != [] && !SameText(text, ws[0].varMapping, v)
    ensures AddWhere(text, ws, v, sign, value) == [ws[0]] + AddWhere(text, ws[1..], v, sign, value)
  {
    match IndexOfVariable(text, ws[1..], v)
    case Some(i) =>
      assert AddWhere(text, ws, v, sign, value) == [ws[0]] + AddWhere(text, ws[1..], v, sign, value);
    case None =>
      assert AddWhere(text, ws, v, sign, value) == [ws[0]] + AddWhere(text, ws[1..], v, sign, value);
  }

  /** `addConstraint` appends exactly the new pair to an entry's pairs. */
  lemma PairsAddConstraint(text: seq<char>, w: WhereExpression, sign: CompareSign, value: CharsMapping)
    requires w.WellFormed() && w.ValidIn(|text|) && value.ValidIn(|text|)
    ensures w.AddConstraint(sign, value).WellFormed() && w.AddConstraint(sign, value).ValidIn(|text|)
    ensures Pairs(text, w.AddConstraint(sign, value)) == Pairs(text, w) + [(sign, Text(text, value))]
  {
  }

  /** `a, b, c`: the parts separated by a comma and a space, built left to
      right the way the render loops append them. */
  function Join(parts: seq<string>): (s: string)
    ensures parts == [] ==> s == ""
    ensures |parts| == 1 ==> s == parts[0]
    decreases |parts|
  {
    if |parts| == 0 then ""
    else if |parts| == 1 then parts[0]
    else Join(parts[..|parts| - 1]) + ", " + parts[|parts| - 1]
  }

  /** Appending a part appends a separator and the part. */
  lemma JoinSnoc(parts: seq<string>, k: nat)
    requires 1 <= k < |parts|
    ensures Join(parts[..k + 1]) == Join(parts[..k]) + ", " + parts[k]
  {
    assert parts[..k + 1][..k] == parts[..k];
  }

  /** `, a, b, c`: each part preceded by the separator. */
  function Separated(parts: seq<string>): string
    decreases |parts|
  {
    if parts == [] then "" else Separated(parts[..|parts| - 1]) + ", " + parts[|parts| - 1]
  }

  lemma Append3(a: string, b: string, c: string)
    ensures a + (b + c) == a + b + c
  {
  }

  /** One more part extends a buffer holding the earlier separated parts. */
  lemma SeparatedStep(buffer: string, parts: seq<string>, i: nat)
    requires i < |parts|
    ensures buffer + Separated(parts[..i]) + ", " + parts[i] == buffer + Separated(parts[..i + 1])
  {
    assert parts[..i + 1][..i] == parts[..i];
    AppendPart(buffer, Separated(parts[..i]), parts[i]);
  }

  /** One more part of a slice extends a buffer holding the earlier parts of it. */
  lemma SeparatedExtend(buffer: string, parts: seq<string>, start: nat, i: nat)
    requires start <= i < |parts|
    ensures buffer + Separated(parts[start..i]) + ", " + parts[i] == buffer + Separated(parts[start..i + 1])
  {
    assert parts[start..i + 1][..i - start] == parts[start..i];
    AppendPart(buffer, Separated(parts[start..i]), parts[i]);
  }

  /** A join is its first part followed by the others, each after a separator. */
  lemma {:induction false} JoinSplit(parts: seq<string>)
    requires parts != []
    ensures Join(parts) == parts[0] + Separated(parts[1..])
    decreases |parts|
  {
    if |parts| == 1 {
      assert parts[1..] == [];
    } else {
      var init := parts[..|parts| - 1];
      JoinSplit(init);
      assert init[1..] == parts[1..][..|parts[1..]| - 1];
      AppendPart(parts[0], Separated(init[1..]), parts[|parts| - 1]);
    }
  }

  /** Appending a separator and then a part extends a buffer the way the
      buffer followed by the longer join reads. */
  lemma AppendPart(buffer: string, joined: string, part: string)
    ensures buffer + (joined + ", " + part) == buffer + joined + ", " + part
  {
  }

  /** Closing a joined list extends a buffer like the enclosed list does. */
  lemma AppendEnclosed(buffer: string, open: string, joined: string, close: string)
    ensures buffer + (open + joined + close) == buffer + open + joined + close
  {
  }

  /** `op: value` for one constraint. */
  function ConstraintPart(text: seq<char>, sign: CompareSign, value: CharsMapping): string
    requires value.ValidIn(|text|)
  {
    Operator(sign) + ": " + Text(text, value)
  }

  function ConstraintParts(text: seq<char>, w: WhereExpression): (ps: seq<string>)
    requires w.WellFormed() && w.ValidIn(|text|)
    ensures |ps| == |w.signQueue|
    ensures forall i :: 0 <= i < |ps| ==> ps[i] == ConstraintPart(text, w.signQueue[i], w.valueMappingQueue[i])
  {
    seq(|w.signQueue|, i requires 0 <= i < |w.signQueue| => ConstraintPart(text, w.signQueue[i], w.valueMappingQueue[i]))
  }

  /** `var: {op: value, ...}` for one where entry. */
  function RenderWhere(text: seq<char>, w: WhereExpression): string
    requires w.WellFormed() && w.ValidIn(|text|)
  {
    Text(text, w.varMapping) + ": {" + Join(ConstraintParts(text, w)) + "}"
  }

  function WhereParts(text: seq<char>, ws: seq<WhereExpression>): (ps: seq<string>)
    requires AllValidIn(ws, |text|)
    ensures |ps| == |ws|
    ensures forall i :: 0 <= i < |ps| ==> ps[i] == RenderWhere(text, ws[i])
  {
    seq(|ws|, i requires 0 <= i < |ws| => RenderWhere(text, ws[i]))
  }

  /** `field: 1` for one projected field. */
  function FieldPart(text: seq<char>, field: CharsMapping): string
    requires field.ValidIn(|text|)
  {
    Text(text, field) + ": 1"
  }

  function FieldParts(text: seq<char>, fields: seq<CharsMapping>): (ps: seq<string>)
    requires forall i :: 0 <= i < |fields| ==> fields[i].ValidIn(|text|)
    ensures |ps| == |fields|
    ensures forall i :: 0 <= i < |ps| ==> ps[i] == FieldPart(text, fields[i])
  {
    seq(|fields|, i requires 0 <= i < |fields| => FieldPart(text, fields[i]))
  }

  function RenderSelect(text: seq<char>, fields: seq<CharsMapping>): string
    requires forall i :: 0 <= i < |fields| ==> fields[i].ValidIn(|text|)
  {
    if fields == [] then "" else ", {" + Join(FieldParts(text, fields)) + "}"
  }

  /** `.skip(n)` or `.limit(n)` when the value is set, nothing otherwise. */
  function RenderOption(text: seq<char>, call: string, value: Option<CharsMapping>): string
    requires value.Some? ==> value.value.ValidIn(|text|)
  {
    match value
    case None => ""
    case Some(m) => call + Text(text, m) + ")"
  }

  /** The shell command `build` produces:
      `db.<from>.find({<wheres>}<, {projection}>)<.skip(n)><.limit(n)>`. */
  function Render(text: seq<char>, q: Query): string
    requires q.ValidIn(|text|) && q.from.Some?
  {
    "db." + Text(text, q.from.value) + ".find({" + Join(WhereParts(text, q.wheres)) + "}"
    + RenderSelect(text, q.fields) + ")"
    + RenderOption(text, ".skip(", q.skip) + RenderOption(text, ".limit(", q.limit)
  }

  /** Every entry with both queues emptied: what `build` leaves in the list. */
  function Drain(ws: seq<WhereExpression>): (r: seq<WhereExpression>)
    ensures |r| == |ws|
    ensures forall i :: 0 <= i < |r| ==> r[i].varMapping == ws[i].varMapping && r[i].Drained()
  {
    seq(|ws|, i requires 0 <= i < |ws| => WhereExpression(ws[i].varMapping, [], []))
  }

  // ---------------------------------------------------------------------
  // The builder

  class MongoShellBuilder {
    var builder: string
    const chars: seq<char>
    var isSelectAll: bool
    var selectFields: seq<CharsMapping>
    var fromDatabaseName: Option<CharsMapping>
    var whereExpressions: seq<WhereExpression>
    var skipValue: Option<CharsMapping>
    var limitValue: Option<CharsMapping>

    /** The values `build` will render. */
    ghost function Model(): Query
      reads this
    {
      Query(isSelectAll, selectFields, fromDatabaseName, whereExpressions, skipValue, limitValue)
    }

    /** Before `build`: nothing has been appended yet, every span lies in the
        text, every where entry is well formed and no variable appears twice. */
    ghost predicate Valid()
      reads this
    {
      builder == ""
      && SpansValid()
      && AllValidIn(whereExpressions, |chars|)
      && DistinctVariables(chars, whereExpressions)
    }

    /** The spans outside the where entries lie in the text. */
    ghost predicate SpansValid()
      reads this
    {
      (forall i :: 0 <= i < |selectFields| ==> selectFields[i].ValidIn(|chars|))
      && (fromDatabaseName.Some? ==> fromDatabaseName.value.ValidIn(|chars|))
      && (skipValue.Some? ==> skipValue.value.ValidIn(|chars|))
      && (limitValue.Some? ==> limitValue.value.ValidIn(|chars|))
    }

    constructor (chars: seq<char>)
      ensures Valid()
      ensures this.chars == chars
      ensures Model() == Query(false, [], None, [], None, None)
    {
      this.chars := chars;
      builder := "";
      isSelectAll := false;
      selectFields := [];
      fromDatabaseName := None;
      whereExpressions := [];
      skipValue := None;
      limitValue := None;
    }

    method SetSelectAll()
      requires Valid()
      modifies this`isSelectAll
      ensures Valid()
      ensures Model() == old(Model()).(selectAll := true)
    {
      isSelectAll := true;
    }

    method AddSelectField(mapping: CharsMapping) returns (err: Option<BuilderError>)
      requires Valid() && mapping.ValidIn(|chars|)
      modifies this`selectFields
      ensures Valid()
      ensures old(isSelectAll) ==> err == Some(SelectAllAlreadySet) && selectFields == old(selectFields)
      ensures !old(isSelectAll) && mapping.isNumber ==> err == Some(NumberInSelect) && selectFields == old(selectFields)
      ensures !old(isSelectAll) && !mapping.isNumber ==> err == None && selectFields == old(selectFields) + [mapping]
    {
      if isSelectAll {
        return Some(SelectAllAlreadySet);
      }
      if mapping.isNumber {
        return Some(NumberInSelect);
      }
      selectFields := selectFields + [mapping];
      err := None;
    }

    method SetFromDatabaseName(mapping: CharsMapping) returns (err: Option<BuilderError>)
      requires Valid() && mapping.ValidIn(|chars|)
      modifies this`fromDatabaseName
      ensures Valid()
      ensures old(fromDatabaseName).Some? ==> err == Some(FromAlreadySet) && fromDatabaseName == old(fromDatabaseName)
      ensures old(fromDatabaseName).None? && mapping.length >= MaxNameLength ==>
        err == Some(FromNameTooLong) && fromDatabaseName == None
      ensures old(fromDatabaseName).None? && mapping.length < MaxNameLength ==>
        err == None && fromDatabaseName == Some(mapping)
    {
      if fromDatabaseName.Some? {
        return Some(FromAlreadySet);
      }
      if mapping.length >= MaxNameLength {
        return Some(FromNameTooLong);
      }
      fromDatabaseName := Some(mapping);
      err := None;
    }

    method SetSkipValue(mapping: CharsMapping) returns (err: Option<BuilderError>)
      requires Valid() && mapping.ValidIn(|chars|)
      modifies this`skipValue
      ensures Valid()
      ensures old(skipValue).Some? ==> err == Some(SkipAlreadySet) && skipValue == old(skipValue)
      ensures old(skipValue).None? && !mapping.isNumber ==> err == Some(SkipNotNumber) && skipValue == None
      ensures old(skipValue).None? && mapping.isNumber ==> err == None && skipValue == Some(mapping)
    {
      if skipValue.Some? {
        return Some(SkipAlreadySet);
      }
      if !mapping.isNumber {
        return Some(SkipNotNumber);
      }
      skipValue := Some(mapping);
      err := None;
    }

    method SetLimitValue(mapping: CharsMapping) returns (err: Option<BuilderError>)
      requires Valid() && mapping.ValidIn(|chars|)
      modifies this`limitValue
      ensures Valid()
      ensures old(limitValue).Some? ==> err == Some(LimitAlreadySet) && limitValue == old(limitValue)
      ensures old(limitValue).None? && !mapping.isNumber ==> err == Some(LimitNotNumber) && limitValue == None
      ensures old(limitValue).None? && mapping.isNumber ==> err == None && limitValue == Some(mapping)
    {
      if limitValue.Some? {
        return Some(LimitAlreadySet);
      }
      if !mapping.isNumber {
        return Some(LimitNotNumber);
      }
      limitValue := Some(mapping);
      err := None;
    }

    /** The `for` loop of `addWhereExpression`: the first entry whose variable
        has the same length and the same characters as `varMapping`. */
    method FindExpression(varMapping: CharsMapping) returns (found: Option<nat>)
      requires Valid() && varMapping.ValidIn(|chars|)
      ensures found == IndexOfVariable(chars, whereExpressions, varMapping)
    {
      var i := 0;
      while i < |whereExpressions|
        invariant 0 <= i <= |whereExpressions|
        invariant forall j :: 0 <= j < i ==> !SameText(chars, whereExpressions[j].varMapping, varMapping)
      {
        var expression := whereExpressions[i];
        if expression.varMapping.length == varMapping.length
          && chars[expression.varMapping.offset..expression.varMapping.GetEndIndex()]
             == chars[varMapping.offset..varMapping.GetEndIndex()]
        {
          return Some(i);
        }
        i := i + 1;
      }
      return None;
    }

    /** A constraint on a variable already present joins that entry; otherwise
        a new entry is appended. */
    method AddWhereExpression(varMapping: CharsMapping, sign: CompareSign, valueMapping: CharsMapping)
      requires Valid() && varMapping.ValidIn(|chars|) && valueMapping.ValidIn(|chars|)
      modifies this`whereExpressions
      ensures Valid()
      ensures whereExpressions == AddWhere(chars, old(whereExpressions), varMapping, sign, valueMapping)
    {
      AddWhereVariables(chars, whereExpressions, varMapping, sign, valueMapping);
      var found := FindExpression(varMapping);
      match found
      case Some(i) =>
        whereExpressions := whereExpressions[i := whereExpressions[i].AddConstraint(sign, valueMapping)];
      case None =>
        whereExpressions := whereExpressions + [WhereExpression(varMapping, [sign], [valueMapping])];
    }

    /** `buildWhereExpression`: appends `var: {op: value, ...}` while emptying
        both queues; returns the entry as it is left. */
    method BuildWhereExpression(whereExpression: WhereExpression) returns (drained: WhereExpression)
      requires whereExpression.WellFormed() && whereExpression.ValidIn(|chars|)
      modifies this`builder
      ensures builder == old(builder) + RenderWhere(chars, whereExpression)
      ensures drained.varMapping == whereExpression.varMapping && drained.Drained()
    {
      ghost var parts := ConstraintParts(chars, whereExpression);
      var e := whereExpression;
      var firstSign := e.signQueue[0];
      e := e.(signQueue := e.signQueue[1..]);
      var firstValueMapping := e.valueMappingQueue[0];
      e := e.(valueMappingQueue := e.valueMappingQueue[1..]);
      var head := Text(chars, e.varMapping) + ": {";
      builder := builder + head + ConstraintPart(chars, firstSign, firstValueMapping);
      ghost var k := 1;
      while e.signQueue != [] && e.valueMappingQueue != []
        invariant 1 <= k <= |whereExpression.signQueue|
        invariant e == whereExpression.(signQueue := whereExpression.signQueue[k..], valueMappingQueue := whereExpression.valueMappingQueue[k..])
        invariant builder == old(builder) + head + Join(parts[..k])
        decreases |e.signQueue|
      {
        var sign := e.signQueue[0];
        e := e.(signQueue := e.signQueue[1..]);
        var valueMapping := e.valueMappingQueue[0];
        e := e.(valueMappingQueue := e.valueMappingQueue[1..]);
        JoinSnoc(parts, k);
        AppendPart(old(builder) + head, Join(parts[..k]), parts[k]);
        builder := builder + ", " + ConstraintPart(chars, sign, valueMapping);
        k := k + 1;
      }
      assert parts[..k] == parts;
      AppendEnclosed(old(builder), head, Join(parts), "}");
      builder := builder + "}";
      drained := e;
    }

    /** `buildWhere`: renders every entry, separated by `, `. The first entry
        is removed from the list; the others stay, with their queues emptied. */
    method BuildWhere()
      requires AllValidIn(whereExpressions, |chars|)
      modifies this`builder, this`whereExpressions
      ensures builder == old(builder) + Join(WhereParts(chars, old(whereExpressions)))
      ensures whereExpressions == Drain(if old(whereExpressions) == [] then [] else old(whereExpressions)[1..])
    {
      if whereExpressions == [] {
        return;
      }
      ghost var parts := WhereParts(chars, whereExpressions);
      var firstExpression := whereExpressions[0];
      whereExpressions := whereExpressions[1..];
      var removed := BuildWhereExpression(firstExpression);
      BuildEachWhere(whereExpressions);
      assert WhereParts(chars, old(whereExpressions)[1..]) == parts[1..];
      JoinSplit(parts);
      Append3(old(builder), parts[0], Separated(parts[1..]));
    }

    /** The `for` loop of `buildWhere` over the entries left after the first:
        each after `, `, its queues emptied in place. */
    method BuildEachWhere(ghost rest: seq<WhereExpression>)
      requires whereExpressions == rest && AllValidIn(rest, |chars|)
      modifies this`builder, this`whereExpressions
      ensures builder == old(builder) + Separated(WhereParts(chars, rest))
      ensures whereExpressions == Drain(rest)
    {
      var i := 0;
      while i < |whereExpressions|
        invariant 0 <= i <= |whereExpressions| == |rest|
        invariant builder == old(builder) + Separated(WhereParts(chars, rest)[..i])
        invariant forall j :: 0 <= j < i ==> whereExpressions[j] == Drain(rest)[j]
        invariant forall j :: i <= j < |rest| ==> whereExpressions[j] == rest[j]
      {
        BuildNextWhere(i, rest, old(builder));
        i := i + 1;
      }
      assert WhereParts(chars, rest)[..i] == WhereParts(chars, rest);
    }

    /** One iteration of the `for` loop of `buildWhere`: `, ` and entry `i`,
        whose queues are emptied in place. */
    method BuildNextWhere(i: nat, ghost rest: seq<WhereExpression>, ghost first: string)
      requires i < |whereExpressions| == |rest| && AllValidIn(rest, |chars|)
      requires builder == first + Separated(WhereParts(chars, rest)[..i])
      requires forall j :: 0 <= j < i ==> whereExpressions[j] == Drain(rest)[j]
      requires forall j :: i <= j < |rest| ==> whereExpressions[j] == rest[j]
      modifies this`builder, this`whereExpressions
      ensures |whereExpressions| == |rest|
      ensures builder == first + Separated(WhereParts(chars, rest)[..i + 1])
      ensures forall j :: 0 <= j < i + 1 ==> whereExpressions[j] == Drain(rest)[j]
      ensures forall j :: i + 1 <= j < |rest| ==> whereExpressions[j] == rest[j]
    {
      SeparatedStep(first, WhereParts(chars, rest), i);
      builder := builder + ", ";
      var drained := BuildWhereExpression(whereExpressions[i]);
      whereExpressions := whereExpressions[i := drained];
    }

    /** `buildSelect`: `, {f: 1, g: 1}` when there are fields, nothing otherwise.
        Only the first field is removed from the queue. */
    method BuildSelect()
      requires forall i :: 0 <= i < |selectFields| ==> selectFields[i].ValidIn(|chars|)
      modifies this`builder, this`selectFields
      ensures builder == old(builder) + RenderSelect(chars, old(selectFields))
      ensures selectFields == if old(selectFields) == [] then [] else old(selectFields)[1..]
    {
      if selectFields == [] {
        return;
      }
      ghost var parts := FieldParts(chars, selectFields);
      builder := builder + ", {";
      var firstField := selectFields[0];
      selectFields := selectFields[1..];
      builder := builder + FieldPart(chars, firstField);
      var i := 0;
      while i < |selectFields|
        invariant 0 <= i <= |selectFields| && selectFields == old(selectFields)[1..]
        invariant builder == old(builder) + ", {" + Join(parts[..i + 1])
      {
        JoinSnoc(parts, i + 1);
        AppendPart(old(builder) + ", {", Join(parts[..i + 1]), parts[i + 1]);
        builder := builder + ", " + FieldPart(chars, selectFields[i]);
        i := i + 1;
      }
      assert parts[..i + 1] == parts;
      AppendEnclosed(old(builder), ", {", Join(parts), "}");
      builder := builder + "}";
    }

    /** The `.skip(n)` / `.limit(n)` suffix of `build`: appended only when the
        value was set. */
    method AppendOption(call: string, value: Option<CharsMapping>)
      requires value.Some? ==> value.value.ValidIn(|chars|)
      modifies this`builder
      ensures builder == old(builder) + RenderOption(chars, call, value)
    {
      if value.Some? {
        builder := builder + (call + Text(chars, value.value) + ")");
      }
    }

    /** The first part of `build`: `db.<collection>.find({<entries>}`. The
        ghost `ws` names the entries held on entry. */
    method AppendFind(from: CharsMapping, ghost ws: seq<WhereExpression>)
      requires from.ValidIn(|chars|) && whereExpressions == ws && AllValidIn(ws, |chars|)
      modifies this`builder, this`whereExpressions
      ensures builder == old(builder) + "db." + Text(chars, from) + ".find({" + Join(WhereParts(chars, ws)) + "}"
      ensures whereExpressions == Drain(if ws == [] then [] else ws[1..])
    {
      builder := builder + "db.";
      builder := builder + Text(chars, from);
      builder := builder + ".find({";
      BuildWhere();
      builder := builder + "}";
    }

    /** The rest of `build`: the projection, `)`, then `.skip(n)` and
        `.limit(n)` when set. The ghost `fields` names the fields held on entry. */
    method AppendTail(ghost fields: seq<CharsMapping>, skip: Option<CharsMapping>, limit: Option<CharsMapping>)
      requires selectFields == fields && forall i :: 0 <= i < |fields| ==> fields[i].ValidIn(|chars|)
      requires (skip.Some? ==> skip.value.ValidIn(|chars|)) && (limit.Some? ==> limit.value.ValidIn(|chars|))
      modifies this`builder, this`selectFields
      ensures builder == old(builder) + RenderSelect(chars, fields) + ")"
        + RenderOption(chars, ".skip(", skip) + RenderOption(chars, ".limit(", limit)
      ensures selectFields == if fields == [] then [] else fields[1..]
    {
      BuildSelect();
      builder := builder + ")";
      AppendOption(".skip(", skip);
      AppendOption(".limit(", limit);
    }

    /** Everything `build` appends once a collection and a projection are set. */
    method AppendQuery()
      requires fromDatabaseName.Some? && SpansValid() && AllValidIn(whereExpressions, |chars|)
      modifies this`builder, this`whereExpressions, this`selectFields
      ensures builder == old(builder) + "db." + Text(chars, old(fromDatabaseName).value) + ".find({"
        + Join(WhereParts(chars, old(whereExpressions))) + "}" + RenderSelect(chars, old(selectFields)) + ")"
        + RenderOption(chars, ".skip(", old(skipValue)) + RenderOption(chars, ".limit(", old(limitValue))
      ensures whereExpressions == Drain(if old(whereExpressions) == [] then [] else old(whereExpressions)[1..])
      ensures selectFields == if old(selectFields) == [] then [] else old(selectFields)[1..]
    {
      ghost var ws, fields := whereExpressions, selectFields;
      var from, skip, limit := fromDatabaseName.value, skipValue, limitValue;
      AppendFind(from, ws);
      AppendTail(fields, skip, limit);
    }

    /** `build`: fails unless a collection and a projection (all, or some
        fields) are set; otherwise appends the rendering of the collected
        query to the (empty) buffer and returns it. */
    method Build() returns (r: Result<string, BuilderError>)
      requires Valid()
      modifies this`builder, this`whereExpressions, this`selectFields
      ensures !old(Model()).Ready() ==> r == Err(NotEnoughInput) && unchanged(this)
      ensures old(Model()).Ready() ==> r == Ok(Render(chars, old(Model()))) && builder == r.value
      ensures old(Model()).Ready() ==>
        whereExpressions == Drain(if old(whereExpressions) == [] then [] else old(whereExpressions)[1..])
        && selectFields == (if old(selectFields) == [] then [] else old(selectFields)[1..])
    {
      if fromDatabaseName.None? || (!isSelectAll && selectFields == []) {
        return Err(NotEnoughInput);
      }
      assert builder + "db." == "db.";
      AppendQuery();
      r := Ok(builder);
    }
  }
}
