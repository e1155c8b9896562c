/**
 * The values a tool-argument object can carry in an id attribute
 * (`chat_id`, `user_id`, ...), with the two Python operations the limiter
 * applies to them: truthiness (`if chat_id:`) and `str(chat_id)`.
 */
module PyValues {
  import Strings

  datatype PyValue = PyNone | PyInt(i: int) | PyStr(s: string)

  /** Python truthiness: `None`, `0` and `""` are false. */
  predicate Truthy(v: PyValue)
  {
    match v
    case PyNone => false
    case PyInt(i) => i != 0
    case PyStr(s) => s != ""
  }

  /** `str(v)`: the key under which a chat window is stored. */
  function Str(v: PyValue): (r: string)
    ensures v.PyInt? ==> |r| >= 1 && (r[0] == '-' <==> v.i < 0)
  {
    match v
    case PyNone => "None"
    case PyInt(i) => Strings.DecimalString(i)
    case PyStr(s) => s
  }

  /** Two integer ids share a chat window only when they are the same id. */
  lemma IntKeysDistinct(m: int, n: int)
    requires Str(PyInt(m)) == Str(PyInt(n))
    ensures m == n
  {
    Strings.DecimalStringInjective(m, n);
  }
}
