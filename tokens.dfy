/** The null-token test every consumer of the saved token selection applies. */
module Tokens {
  import opened Common

  /** JavaScript's `x == null || x == "null"`: loose equality with null holds
      for null and undefined; with the string "null" it holds only for that
      string (a number compares against NaN and never matches). */
  predicate IsSomeNull(x: JsValue)
  {
    x.Null? || x.Undefined? || (x.Str? && x.s == "null")
  }

  /** A field that carries a usable side or index. */
  predicate HasValue(x: JsValue)
  {
    x.Num? || (x.Str? && x.s != "null")
  }

  /** A token counts as null when either of its fields is null, undefined or
      the string "null": one null field is enough. The test compares the
      record itself with null but then reads both of its fields regardless,
      so a missing record raises a TypeError instead of counting as null;
      the model therefore takes a present record. */
  predicate IsNullToken(tok: TokenEvent)
    ensures !IsNullToken(tok) <==> HasValue(tok.side) && HasValue(tok.ind)
  {
    IsSomeNull(tok.side) || IsSomeNull(tok.ind)
  }

  /** The sentinel, and its string form read back from a URL, are null. */
  lemma SentinelIsNull()
    ensures IsNullToken(NoToken)
    ensures IsNullToken(TokenEvent(Str("null"), Str("null")))
  {
  }

  /** Clearing either field of any token makes it null, whatever the other
      field holds. */
  lemma PartialNullIsNull(tok: TokenEvent, v: JsValue)
    requires IsSomeNull(v)
    ensures IsNullToken(tok.(side := v))
    ensures IsNullToken(tok.(ind := v))
  {
  }

  /** Index 0 and any side other than the string "null" are real values: the test
      is not JavaScript truthiness. */
  lemma RealTokensAreNotNull(side: string, i: int)
    requires side != "null"
    ensures !IsNullToken(TokenEvent(Str(side), Num(i)))
    ensures !IsNullToken(TokenEvent(Str(side), Str("0")))
  {
  }
}
