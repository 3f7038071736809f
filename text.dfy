/**
 * Decimal rendering of numbers and Python's `str`/`repr` of the values that
 * end up in comments and error messages.
 */
module Text {
  import opened Values

  predicate IsDigit(c: char)
  {
    '0' <= c <= '9'
  }

  predicate AllDigits(s: string)
  {
    forall i :: 0 <= i < |s| ==> IsDigit(s[i])
  }

  /** The decimal numeral of `n`, as `str(n)` prints it. */
  function NatText(n: nat): (s: string)
    ensures s != [] && AllDigits(s)
    decreases n
  {
    if n < 10 then [('0' as int + n) as char]
    else NatText(n / 10) + [('0' as int + n % 10) as char]
  }

  /** The value of a string of decimal digits. */
  function DigitsValue(s: string): nat
    requires AllDigits(s)
  {
    if s == [] then 0
    else DigitsValue(s[..|s| - 1]) * 10 + (s[|s| - 1] as int - '0' as int)
  }

  /** Reading a numeral back gives the number it was printed from. */
  lemma {:induction false} NatTextRoundTrip(n: nat)
    ensures DigitsValue(NatText(n)) == n
    decreases n
  {
    if n >= 10 {
      NatTextRoundTrip(n / 10);
      var s := NatText(n);
      assert s[..|s| - 1] == NatText(n / 10);
    }
  }

  /** Distinct numbers print as distinct numerals. */
  lemma NatTextInjective(m: nat, n: nat)
    ensures NatText(m) == NatText(n) ==> m == n
  {
    NatTextRoundTrip(m);
    NatTextRoundTrip(n);
  }

  /** `str(i)` for an int. */
  function IntText(i: int): string
  {
    if i < 0 then "-" + NatText(-i) else NatText(i)
  }

  /** The strings of `parts` separated by `sep`, as `sep.join(parts)`. */
  function Join(parts: seq<string>, sep: string): string
  {
    if parts == [] then ""
    else if |parts| == 1 then parts[0]
    else parts[0] + sep + Join(parts[1..], sep)
  }

  /**
   * `repr(v)` when `quoted`, `str(v)` otherwise. Floats, sets and toolkit
   * objects print as fixed placeholders.
   */
  function Show(v: Val, quoted: bool): string
    decreases v
  {
    match v
    case VNone => "None"
    case VBool(b) => if b then "True" else "False"
    case VInt(i) => IntText(i)
    case VFloat(_) => "<float>"
    case VStr(s) => if quoted then "'" + s + "'" else s
    case VRef(o) => "<" + ClassName(o.cls) + ">"
    case VList(items) =>
      "[" + Join(seq(|items|, i requires 0 <= i < |items| => Show(items[i], true)), ", ") + "]"
    case VTuple(items) =>
      if |items| == 1 then "(" + Show(items[0], true) + ",)"
      else "(" + Join(seq(|items|, i requires 0 <= i < |items| => Show(items[i], true)), ", ") + ")"
    case VSet(_) => "<set>"
    case VDict(entries) =>
      "{" + Join(seq(|entries|, i requires 0 <= i < |entries| =>
                       Show(entries[i].0, true) + ": " + Show(entries[i].1, true)), ", ") + "}"
  }

  /** `str(v)`. */
  function Str(v: Val): string
  {
    Show(v, false)
  }

  /** `repr(v)`. */
  function Repr(v: Val): string
  {
    Show(v, true)
  }

  /** `str(slice(lo, hi, None))`. */
  function SliceText(lo: Option<int>, hi: Option<int>): string
  {
    "slice(" + (if lo.Some? then IntText(lo.value) else "None") + ", "
    + (if hi.Some? then IntText(hi.value) else "None") + ", None)"
  }
}
