/** Values shared by the session store and the screens: optional values, the
    backend's user records, the answers of the HTTP helpers, and the two
    built-ins the screens rely on (Number/String toString and Array find). */
module Values {

  datatype Option<+T> = None | Some(value: T)

  /** A record id as the JSON backend sends it: a number or a string. */
  datatype Id = Num(n: int) | Str(s: string)

  function Digit(d: nat): (c: char)
    requires d < 10
    ensures '0' <= c <= '9'
  {
    "0123456789"[d]
  }

  /** The decimal numeral of n, most significant digit first, no leading
      zero. */
  function NatToDecimal(n: nat): (r: string)
    ensures |r| >= 1
    ensures forall k | 0 <= k < |r| :: '0' <= r[k] <= '9'
    ensures n >= 10 <==> |r| >= 2
    ensures |r| >= 2 ==> r[0] != '0'
    decreases n
  {
    if n < 10 then [Digit(n)] else NatToDecimal(n / 10) + [Digit(n % 10)]
  }

  /** id.toString(): an integer id of magnitude below 10^21 becomes its
      decimal numeral (with '-' when negative), a string stays as it is.
      Integers from 10^21 up, which JavaScript writes in exponent form, are
      given their decimal numeral as well. */
  function IdToString(id: Id): (r: string)
    ensures id.Num? ==> r != []
    ensures id.Str? ==> r == id.s
  {
    match id
    case Num(n) => if n < 0 then "-" + NatToDecimal(-n) else NatToDecimal(n)
    case Str(s) => s
  }

  /** A record of the /users resource. */
  datatype User = User(id: Id, username: string, email: string, password: string)

  /** What awaiting one of the HTTP helpers of the API service yields: the
      response data (truthy), data that is falsy, or a thrown error. */
  datatype Response<+T> = Ok(data: T) | Falsy | Failed

  /** Array.prototype.find, as an index: the first position whose element
      satisfies p, or None when no element does. */
  function FindIndex<T>(s: seq<T>, p: T -> bool): (r: Option<nat>)
    ensures r.Some? ==> r.value < |s| && p(s[r.value])
    ensures r.Some? ==> forall j | 0 <= j < r.value :: !p(s[j])
    ensures r.None? <==> forall j | 0 <= j < |s| :: !p(s[j])
  {
    if |s| == 0 then None
    else if p(s[0]) then Some(0)
    else match FindIndex(s[1..], p)
      case None => None
      case Some(i) => Some(i + 1)
  }
}
