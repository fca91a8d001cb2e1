/**
 * Python values as the backend sees them: the scalar JSON values held in `input_data`,
 * `output_data` and spreadsheet cells, and the entries of a field's mapping bag, with the
 * Python operations the renderers apply to them (`str`, truthiness, `==` against an int,
 * `float`).
 */
module Values {
  import opened Wrappers

  /** A scalar JSON value held in a data dict or a spreadsheet cell. */
  datatype Value = Null | Bool(flag: bool) | Int(number: int) | Str(text: string)

  function DigitChar(d: nat): char
    requires d < 10
  {
    "0123456789"[d]
  }

  /** The decimal digits of `n`, most significant first, without leading zeros. */
  function Digits(n: nat): (s: string)
    ensures s != []
    ensures forall i :: 0 <= i < |s| ==> '0' <= s[i] <= '9'
    ensures n > 0 ==> s[0] != '0'
  {
    if n < 10 then [DigitChar(n)] else Digits(n / 10) + [DigitChar(n % 10)]
  }

  /** Python's `str` of an int. */
  function IntToDecimal(i: int): string {
    if i < 0 then "-" + Digits(-i) else Digits(i)
  }

  /** Python's `str(v)`, which is also what an f-string prints for `v`. */
  function PyStr(v: Value): string {
    match v
    case Null => "None"
    case Bool(b) => if b then "True" else "False"
    case Int(n) => IntToDecimal(n)
    case Str(s) => s
  }

  /** Python truthiness: `if v:`. */
  predicate Truthy(v: Value) {
    match v
    case Null => false
    case Bool(b) => b
    case Int(n) => n != 0
    case Str(s) => s != ""
  }

  /** `d.get(key)`: the value, or None when the key is missing. */
  function Lookup(d: map<string, Value>, key: string): Value {
    if key in d then d[key] else Null
  }

  /**
   * One entry of a field's mapping bag, a JSON object. Integers and floats are both numbers
   * (Python compares `1.0 == 1`); lists and objects only matter for their truthiness.
   */
  datatype Setting = SNull | SBool(flag: bool) | SNum(num: real) | SStr(text: string) | SCompound(isEmpty: bool)

  type Mapping = map<string, Setting>

  /** `mapping.get(key, default)`. */
  function Get(m: Mapping, key: string, default: Setting): Setting {
    if key in m then m[key] else default
  }

  predicate SettingTruthy(s: Setting) {
    match s
    case SNull => false
    case SBool(b) => b
    case SNum(r) => r != 0.0
    case SStr(t) => t != ""
    case SCompound(empty) => !empty
  }

  /** Python's `s == n` for an int `n` (a bool is the int 0 or 1; a string, None, list or dict never equals an int). */
  predicate EqualsInt(s: Setting, n: int) {
    match s
    case SBool(b) => (if b then 1 else 0) == n
    case SNum(r) => r == n as real
    case _ => false
  }

  /** A setting equals at most one int. */
  lemma EqualsIntUnique(s: Setting, m: int, n: int)
    requires EqualsInt(s, m) && EqualsInt(s, n)
    ensures m == n
  {
  }

  /**
   * Python's `float(s)`: None where it raises. How a string is read is Python's own number
   * syntax, given as `parseFloat`.
   */
  function ToFloat(s: Setting, parseFloat: string -> Option<real>): Option<real> {
    match s
    case SBool(b) => Some(if b then 1.0 else 0.0)
    case SNum(r) => Some(r)
    case SStr(t) => parseFloat(t)
    case _ => None
  }
}
