/** Small shared vocabulary: an optional value and the JSON values a request body can carry. */
module Common {

  /** A value that may be absent (Java `null`, JSON `null`/missing, an empty SQL result). */
  datatype Option<T> = None | Some(value: T)

  /** A JSON value as it reaches a handler after `JSON.parse`; numbers are integers. */
  datatype JsValue = Undefined | Null | Bool(b: bool) | Number(n: int) | Str(s: string)

  /** Some element of a non-empty set. */
  ghost function PickKey<K>(s: set<K>): (k: K)
    requires s != {}
    ensures k in s
  {
    var k :| k in s; k
  }

  /** JavaScript truthiness (`!v` is true exactly when this is false). */
  predicate Truthy(v: JsValue)
  {
    match v
    case Undefined => false
    case Null => false
    case Bool(b) => b
    case Number(n) => n != 0
    case Str(s) => s != ""
  }

  /** ASCII decimal digit, the class `\d` matches in JavaScript and Java regexes. */
  predicate IsDigit(c: char)
  {
    '0' <= c <= '9'
  }

  predicate AllDigits(s: string)
  {
    forall i :: 0 <= i < |s| ==> IsDigit(s[i])
  }

  /** The value of a decimal digit character. */
  function DigitValue(c: char): (n: int)
    ensures IsDigit(c) ==> 0 <= n <= 9
  {
    c as int - '0' as int
  }
}
