/** JavaScript's `||` on the two kinds of values the product layer combines with it:
    strings (where `""` is falsy) and numbers (where `0` is falsy). A missing value
    (`undefined`) is falsy too. */
module JsLogic {
  import opened Wrappers

  /** A string JavaScript treats as true: present and non-empty. */
  predicate TruthyString(s: Option<string>) {
    s.Some? && s.value != ""
  }

  /** A number JavaScript treats as true: present and non-zero. */
  predicate TruthyNumber(n: Option<int>) {
    n.Some? && n.value != 0
  }

  /** `a || b` where `b` is known to be a string. */
  function OrString(a: Option<string>, b: string): (r: string)
    ensures TruthyString(a) ==> r == a.value
    ensures !TruthyString(a) ==> r == b
  {
    if TruthyString(a) then a.value else b
  }

  /** `a || b` where `b` is known to be a number. */
  function OrNumber(a: Option<int>, b: int): (r: int)
    ensures TruthyNumber(a) ==> r == a.value
    ensures !TruthyNumber(a) ==> r == b
  {
    if TruthyNumber(a) then a.value else b
  }
}
