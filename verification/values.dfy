/**
  Small value-level helpers shared by the record models: an optional value
  standing for a nullable database column, Rails' notion of a blank string,
  and the integer test and integer column cast applied to decimal input.
 */
module Values {

  /** A nullable column: `None` is Ruby's `nil`. */
  datatype Option<+T> = None | Some(value: T) {

    /** The wrapped value, or `default` for `nil` (Ruby's `x || default`). */
    function GetOr(default: T): (r: T)
      ensures Some? ==> r == value
      ensures None? ==> r == default
    {
      match this
      case Some(v) => v
      case None => default
    }
  }

  /**
    The characters `String#blank?` treats as blank: the Unicode White_Space
    characters that its `[[:space:]]` class matches.
   */
  predicate IsSpace(c: char) {
    || ('\U{0009}' <= c <= '\U{000D}')
    || c == ' ' || c == '\U{0085}' || c == '\U{00A0}' || c == '\U{1680}'
    || ('\U{2000}' <= c <= '\U{200A}')
    || c == '\U{2028}' || c == '\U{2029}' || c == '\U{202F}' || c == '\U{205F}' || c == '\U{3000}'
  }

  /** `String#blank?`: empty or made only of whitespace. */
  predicate Blank(s: string) {
    forall i :: 0 <= i < |s| ==> IsSpace(s[i])
  }

  /** `presence: true` on a nullable string column. */
  predicate PresentString(s: Option<string>) {
    s.Some? && !Blank(s.value)
  }

  /**
    A decimal with no fractional part. The models read `only_integer: true`
    as this test on the value; Rails tests the text of the raw value instead,
    so a whole-valued decimal such as `2.0` counts as an integer here only.
   */
  predicate IsInteger(x: real) {
    x.Floor as real == x
  }

  /** Ruby's `Float#to_i` / an integer column cast: truncation toward zero. */
  function Truncate(x: real): (n: int)
    ensures 0.0 <= x ==> n as real <= x < n as real + 1.0
    ensures x < 0.0 ==> n as real - 1.0 < x <= n as real
  {
    if x >= 0.0 then x.Floor else -((-x).Floor)
  }
}
