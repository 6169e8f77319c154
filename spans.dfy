/** The span type `CharsMapping`: an (offset, length) reference into the query
    text, tagged once with whether it is a number. It never copies the text. */
module Spans {

  /** All three fields are final in the source, so a span is a value. */
  datatype CharsMapping = CharsMapping(offset: int, length: int, isNumber: bool)
  {
    /** Index one past the last character of the span. */
    function GetEndIndex(): int {
      offset + length
    }

    /** The constructor validates nothing; a span can only be used to read
        a text of length `n` when it lies inside `[0, n]`. */
    predicate ValidIn(n: int) {
      0 <= offset && 0 <= length && offset + length <= n
    }
  }

  /** The constructor `CharsMapping(startIdx, endIdx, isNumber)`. */
  function NewCharsMapping(startIdx: int, endIdx: int, isNumber: bool): (m: CharsMapping)
    ensures m.offset == startIdx && m.isNumber == isNumber
    ensures m.GetEndIndex() == endIdx
  {
    CharsMapping(startIdx, endIdx - startIdx, isNumber)
  }

  /** A constructed span is usable in a text of length `n` exactly when
      `0 <= startIdx <= endIdx <= n`. */
  lemma NewCharsMappingValid(startIdx: int, endIdx: int, isNumber: bool, n: int)
    ensures NewCharsMapping(startIdx, endIdx, isNumber).ValidIn(n) <==> 0 <= startIdx <= endIdx <= n
  {
  }

  /** The characters a span denotes: what `StringBuilder.append(chars, offset, length)`
      copies and what `Arrays.compare` reads over `[offset, getEndIndex())`. */
  function Text(text: seq<char>, m: CharsMapping): seq<char>
    requires m.ValidIn(|text|)
  {
    text[m.offset..m.GetEndIndex()]
  }
}
