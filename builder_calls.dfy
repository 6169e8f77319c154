/** The calls a client makes on `MongoShellBuilder` while it walks a query:
    one call per clause, each of which may throw. `Step` is what one call does
    to the collected query, `Replay` a whole sequence of calls that stops at the
    first exception, and `Perform`/`PerformAll` make those calls on a builder
    object and are proved against them. */
module BuilderCalls {
  import opened Wrappers
  import opened Spans
  import opened MongoShell

  /** One builder call with its arguments. */
  datatype Call =
    | SelectAll                                                     // setSelectAll()
    | SelectField(field: CharsMapping)                              // addSelectField(mapping)
    | From(name: CharsMapping)                                      // setFromDatabaseName(mapping)
    | Condition(variable: CharsMapping, sign: CompareSign, value: CharsMapping)  // addWhereExpression(...)
    | Skip(count: CharsMapping)                                     // setSkipValue(mapping)
    | Limit(count: CharsMapping)                                    // setLimitValue(mapping)

  /** Every span the call passes lies in a text of length `n`. */
  predicate CallValidIn(c: Call, n: int) {
    match c
    case SelectAll => true
    case SelectField(m) => m.ValidIn(n)
    case From(m) => m.ValidIn(n)
    case Condition(v, _, x) => v.ValidIn(n) && x.ValidIn(n)
    case Skip(m) => m.ValidIn(n)
    case Limit(m) => m.ValidIn(n)
  }

  predicate CallsValidIn(calls: seq<Call>, n: int) {
    forall i :: 0 <= i < |calls| ==> CallValidIn(calls[i], n)
  }

  /** The effect of one call on the collected query, or the exception it
      throws (in which case nothing was changed). */
  function Step(text: seq<char>, q: Query, c: Call): (r: Result<Query, BuilderError>)
    requires q.ValidIn(|text|) && CallValidIn(c, |text|)
    ensures r.Ok? ==> r.value.ValidIn(|text|)
    ensures r.Ok? && !c.Condition? ==> r.value.wheres == q.wheres
  {
    match c
    case SelectAll => Ok(q.(selectAll := true))
    case SelectField(m) =>
      if q.selectAll then Err(SelectAllAlreadySet)
      else if m.isNumber then Err(NumberInSelect)
      else Ok(q.(fields := q.fields + [m]))
    case From(m) =>
      if q.from.Some? then Err(FromAlreadySet)
      else if m.length >= MaxNameLength then Err(FromNameTooLong)
      else Ok(q.(from := Some(m)))
    case Condition(v, s, x) => Ok(q.(wheres := AddWhere(text, q.wheres, v, s, x)))
    case Skip(m) =>
      if q.skip.Some? then Err(SkipAlreadySet)
      else if !m.isNumber then Err(SkipNotNumber)
      else Ok(q.(skip := Some(m)))
    case Limit(m) =>
      if q.limit.Some? then Err(LimitAlreadySet)
      else if !m.isNumber then Err(LimitNotNumber)
      else Ok(q.(limit := Some(m)))
  }

  /** The calls in order; the first exception ends the sequence. */
  function Replay(text: seq<char>, q: Query, calls: seq<Call>): (r: Result<Query, BuilderError>)
    requires q.ValidIn(|text|) && CallsValidIn(calls, |text|)
    ensures r.Ok? ==> r.value.ValidIn(|text|)
    decreases |calls|
  {
    if calls == [] then Ok(q)
    else match Step(text, q, calls[0])
      case Err(e) => Err(e)
      case Ok(next) => Replay(text, next, calls[1..])
  }

  /** Replaying `calls + [c]` is replaying `calls`, then making `c`. */
  lemma {:induction false} ReplaySnoc(text: seq<char>, q: Query, calls: seq<Call>, c: Call)
    requires q.ValidIn(|text|) && CallsValidIn(calls, |text|) && CallValidIn(c, |text|)
    ensures CallsValidIn(calls + [c], |text|)
    ensures Replay(text, q, calls + [c]) ==
      match Replay(text, q, calls)
      case Err(e) => Err(e)
      case Ok(p) => Step(text, p, c)
    decreases |calls|
  {
    assert CallsValidIn(calls + [c], |text|);
    if calls == [] {
      assert [c][1..] == [];
    } else {
      assert (calls + [c])[1..] == calls[1..] + [c];
      match Step(text, q, calls[0])
      case Err(e) =>
      case Ok(next) => ReplaySnoc(text, next, calls[1..], c);
    }
  }

  /** Makes one call on the builder. */
  method Perform(b: MongoShellBuilder, c: Call) returns (err: Option<BuilderError>)
    requires b.Valid() && CallValidIn(c, |b.chars|)
    modifies b
    ensures b.Valid()
    ensures Step(b.chars, old(b.Model()), c).Ok? ==>
      err == None && b.Model() == Step(b.chars, old(b.Model()), c).value
    ensures Step(b.chars, old(b.Model()), c).Err? ==>
      err == Some(Step(b.chars, old(b.Model()), c).error) && b.Model() == old(b.Model())
  {
    match c
    case SelectAll =>
      b.SetSelectAll();
      err := None;
    case SelectField(m) =>
      err := b.AddSelectField(m);
    case From(m) =>
      err := b.SetFromDatabaseName(m);
    case Condition(v, s, x) =>
      b.AddWhereExpression(v, s, x);
      err := None;
    case Skip(m) =>
      err := b.SetSkipValue(m);
    case Limit(m) =>
      err := b.SetLimitValue(m);
  }

  /** Makes the calls in order and stops at the first exception. */
  method PerformAll(b: MongoShellBuilder, calls: seq<Call>) returns (err: Option<BuilderError>)
    requires b.Valid() && CallsValidIn(calls, |b.chars|)
    modifies b
    ensures b.Valid()
    ensures Replay(b.chars, old(b.Model()), calls) ==
      (if err.None? then Ok(b.Model()) else Err(err.value))
  {
    var i := 0;
    err := None;
    while i < |calls|
      invariant 0 <= i <= |calls|
      invariant b.Valid()
      invariant err == None && Replay(b.chars, old(b.Model()), calls[..i]) == Ok(b.Model())
      decreases |calls| - i
    {
      ReplaySnoc(b.chars, old(b.Model()), calls[..i], calls[i]);
      assert calls[..i + 1] == calls[..i] + [calls[i]];
      ghost var before := b.Model();
      err := Perform(b, calls[i]);
      assert Replay(b.chars, old(b.Model()), calls[..i + 1]) == Step(b.chars, before, calls[i]);
      if err.Some? {
        ReplayStops(b.chars, old(b.Model()), calls, i + 1);
        return;
      }
      i := i + 1;
    }
    assert calls[..i] == calls;
  }

  /** Once a prefix of the calls fails, the whole sequence fails the same way. */
  lemma {:induction false} ReplayStops(text: seq<char>, q: Query, calls: seq<Call>, k: nat)
    requires q.ValidIn(|text|) && CallsValidIn(calls, |text|) && 0 < k <= |calls|
    requires Replay(text, q, calls[..k]).Err?
    ensures Replay(text, q, calls) == Replay(text, q, calls[..k])
    decreases k
  {
    assert calls[..k][0] == calls[0];
    assert calls[..k][1..] == calls[1..][..k - 1];
    match Step(text, q, calls[0])
    case Err(e) =>
    case Ok(next) =>
      if k > 1 {
        ReplayStops(text, next, calls[1..], k - 1);
      }
  }

  /** The state of a new builder. */
  const Empty := Query(false, [], None, [], None, None)

  /** What `build` returns after the calls, or the first exception thrown. */
  function Output(text: seq<char>, calls: seq<Call>): (r: Result<string, BuilderError>)
    requires CallsValidIn(calls, |text|)
  {
    match Replay(text, Empty, calls)
    case Err(e) => Err(e)
    case Ok(q) => if q.Ready() then Ok(Render(text, q)) else Err(NotEnoughInput)
  }

  /** A new builder over `text`, the calls in order, then `build`. */
  method Run(text: seq<char>, calls: seq<Call>) returns (r: Result<string, BuilderError>)
    requires CallsValidIn(calls, |text|)
    ensures r == Output(text, calls)
  {
    var b := new MongoShellBuilder(text);
    var err := PerformAll(b, calls);
    if err.Some? {
      return Err(err.value);
    }
    r := b.Build();
  }
}
