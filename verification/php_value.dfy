/**
 The dynamically typed values a request's parameter store holds, and PHP's
 rule for converting such a value to a boolean, which the short ternary
 operator `a ?: b` relies on.
 */
module PhpValue {

  /** The scalar PHP values a caller can hand to a setter. */
  datatype Value = Null | Bool(b: bool) | Int(i: int) | Str(s: string)

  /** PHP's boolean conversion: null, false, 0, "" and "0" are falsy; every other value is truthy. */
  predicate IsFalsy(v: Value) {
    match v
    case Null => true
    case Bool(b) => !b
    case Int(i) => i == 0
    case Str(s) => s == "" || s == "0"
  }

  /** PHP's short ternary `a ?: b`: the first operand when it is truthy, else the fallback. */
  function Elvis(a: Value, fallback: Value): (r: Value)
    ensures r == a || r == fallback
    ensures !IsFalsy(a) ==> r == a
    ensures IsFalsy(a) ==> r == fallback
    ensures !IsFalsy(fallback) ==> !IsFalsy(r)
  {
    if IsFalsy(a) then fallback else a
  }

  /** With a truthy fallback, the short ternary yields the fallback exactly when the first operand is falsy. */
  lemma ElvisFallbackIff(a: Value, fallback: Value)
    requires !IsFalsy(fallback)
    ensures Elvis(a, fallback) == fallback <==> (IsFalsy(a) || a == fallback)
  {
  }
}
