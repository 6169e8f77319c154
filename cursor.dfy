/** `CharArrayIterator`: a bidirectional cursor over a character buffer whose
    position is kept inside `[begin, end]`; reading outside `[begin, end)`
    yields the sentinel `DONE`, written here as `None`. */
module Cursor {
  import opened Wrappers

  /** The character at index `p` of `text`, or `None` (the `DONE` sentinel)
      when `p` is outside the text. */
  function CharAt(text: seq<char>, p: int): Option<char> {
    if 0 <= p < |text| then Some(text[p]) else None
  }

  datatype CursorError = InvalidIndex

  class CharArrayIterator {
    /** The buffer and its bounds are fixed at construction. */
    const chars: seq<char>
    const begin: int
    const end: int
    var pos: int

    /** The class invariant `begin <= pos <= end`, with the bounds the
        constructor chooses. */
    ghost predicate Valid()
      reads this
    {
      begin == 0 && end == |chars| && begin <= pos <= end
    }

    constructor (chars: seq<char>)
      ensures Valid()
      ensures this.chars == chars && pos == 0
    {
      this.chars := chars;
      begin := 0;
      end := |chars|;
      pos := 0;
    }

    /** The character at the current position, or `DONE` off the end. */
    function Current(): (c: Option<char>)
      reads this
      requires Valid()
      ensures c.Some? <==> pos < end
      ensures c.Some? ==> c.value == chars[pos]
    {
      if pos >= begin && pos < end then Some(chars[pos]) else None
    }

    method First() returns (c: Option<char>)
      requires Valid()
      modifies this`pos
      ensures Valid()
      ensures pos == begin && c == Current()
    {
      pos := begin;
      c := Current();
    }

    method Last() returns (c: Option<char>)
      requires Valid()
      modifies this`pos
      ensures Valid()
      ensures pos == if end != begin then end - 1 else end
      ensures c == Current()
      ensures c.None? <==> chars == []
    {
      if end != begin {
        pos := end - 1;
      } else {
        pos := end;
      }
      c := Current();
    }

    /** Moves one step forward; at or past the last character it parks the
        cursor at `end` and answers `DONE`. */
    method Next() returns (c: Option<char>)
      requires Valid()
      modifies this`pos
      ensures Valid()
      ensures pos == if old(pos) < end - 1 then old(pos) + 1 else end
      ensures c == Current()
      ensures c.Some? <==> old(pos) < end - 1
    {
      if pos < end - 1 {
        pos := pos + 1;
        c := Some(chars[pos]);
      } else {
        pos := end;
        c := None;
      }
    }

    /** Moves one step back; at `begin` it stays and answers `DONE`. */
    method Previous() returns (c: Option<char>)
      requires Valid()
      modifies this`pos
      ensures Valid()
      ensures old(pos) > begin ==> pos == old(pos) - 1 && c == Some(chars[pos])
      ensures old(pos) <= begin ==> pos == old(pos) && c == None
    {
      if pos > begin {
        pos := pos - 1;
        c := Some(chars[pos]);
      } else {
        c := None;
      }
    }

    /** Positions the cursor anywhere in `[begin, end]`; any other position
        is refused and leaves the cursor where it was. */
    method SetIndex(position: int) returns (r: Result<Option<char>, CursorError>)
      requires Valid()
      modifies this`pos
      ensures Valid()
      ensures (position < begin || position > end) ==> r == Err(InvalidIndex) && pos == old(pos)
      ensures begin <= position <= end ==> pos == position && r == Ok(Current())
      ensures r.Ok? ==> (r.value.None? <==> position == end)
    {
      if position < begin || position > end {
        return Err(InvalidIndex);
      }
      pos := position;
      r := Ok(Current());
    }

    function GetBeginIndex(): (b: int)
      reads this
      requires Valid()
      ensures b == 0
    {
      begin
    }

    function GetEndIndex(): (e: int)
      reads this
      requires Valid()
      ensures e == |chars|
    {
      end
    }

    function GetIndex(): (i: int)
      reads this
      requires Valid()
      ensures 0 <= i <= |chars|
      ensures i == pos
    {
      pos
    }
  }

  /** Stepping past the last character and back again: `next()` from the
      last character answers `DONE` and parks the cursor at `end`, and
      `previous()` from there answers the last character again. */
  method StepPastEndAndBack(text: seq<char>) returns (last: Option<char>, past: Option<char>, back: Option<char>)
    requires text != []
    ensures last == Some(text[|text| - 1])
    ensures past == None
    ensures back == last
  {
    var it := new CharArrayIterator(text);
    last := it.Last();
    past := it.Next();
    assert it.pos == |text|;
    back := it.Previous();
  }
}
