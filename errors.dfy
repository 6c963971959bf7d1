/** The scanner's API errors: one class per mapped HTTP status, all derived
    from the base AcunetixAPIError, each carrying the status and the raw
    response text, and the text str() gives them. */
module Errors {
  import opened Json

  /** AcunetixAPIError and its eleven subclasses. Every value of this type is
      an AcunetixAPIError, so a handler for the base class catches them all. */
  datatype ErrorClass =
    | AcunetixApiError
    | Acunetix400Error
    | Acunetix401Error
    | Acunetix403Error
    | Acunetix404Error
    | Acunetix409Error
    | Acunetix422Error
    | Acunetix429Error
    | Acunetix500Error
    | Acunetix502Error
    | Acunetix503Error
    | Acunetix504Error

  /** ERROR_MAP, in the order the source lists it. */
  const ErrorMap: map<int, ErrorClass> := map[
    404 := Acunetix404Error,
    401 := Acunetix401Error,
    400 := Acunetix400Error,
    500 := Acunetix500Error,
    503 := Acunetix503Error,
    504 := Acunetix504Error,
    429 := Acunetix429Error,
    403 := Acunetix403Error,
    409 := Acunetix409Error,
    422 := Acunetix422Error,
    502 := Acunetix502Error
  ]

  /** The status a subclass is named after; the base class has none. */
  function NamedStatus(c: ErrorClass): Option<int> {
    match c
    case AcunetixApiError => None
    case Acunetix400Error => Some(400)
    case Acunetix401Error => Some(401)
    case Acunetix403Error => Some(403)
    case Acunetix404Error => Some(404)
    case Acunetix409Error => Some(409)
    case Acunetix422Error => Some(422)
    case Acunetix429Error => Some(429)
    case Acunetix500Error => Some(500)
    case Acunetix502Error => Some(502)
    case Acunetix503Error => Some(503)
    case Acunetix504Error => Some(504)
  }

  /** `ERROR_MAP.get(status, AcunetixAPIError)`: the class raised for a
      non-2xx status. */
  function ClassFor(status: int): (c: ErrorClass)
    ensures c != AcunetixApiError <==> status in {400, 401, 403, 404, 409, 422, 429, 500, 502, 503, 504}
    ensures c != AcunetixApiError ==> NamedStatus(c) == Some(status)
  {
    if status in ErrorMap then ErrorMap[status] else AcunetixApiError
  }

  /** ERROR_MAP has exactly the eleven statuses as keys, maps each to the
      subclass named after it and no two of them to the same class. */
  lemma ErrorMapShape()
    ensures ErrorMap.Keys == {400, 401, 403, 404, 409, 422, 429, 500, 502, 503, 504}
    ensures forall s :: s in ErrorMap ==> NamedStatus(ErrorMap[s]) == Some(s)
    ensures forall s, t :: s in ErrorMap && t in ErrorMap && s != t ==> ErrorMap[s] != ErrorMap[t]
    ensures AcunetixApiError !in ErrorMap.Values
  {
  }

  /** An AcunetixAPIError instance: its class, `status` and `message`. */
  datatype ApiError = ApiError(cls: ErrorClass, status: int, message: string)

  const Prefix := "Got response with status code "
  const Infix := " from Acunetix: "

  /** `__str__`. */
  function Describe(e: ApiError): (s: string)
    ensures |s| >= |Prefix| + |Infix| + |e.message| && s[..|Prefix|] == Prefix
    ensures s[|s| - |e.message|..] == e.message
  {
    Prefix + IntText(e.status) + Infix + e.message
  }

  predicate IsDigit(c: char) {
    '0' <= c <= '9'
  }

  function Digit(d: nat): char
    requires d < 10
  {
    "0123456789"[d]
  }

  /** Python's str() on a non-negative int. */
  function NatText(n: nat): (s: string)
    ensures |s| > 0 && forall k :: 0 <= k < |s| ==> IsDigit(s[k])
    decreases n
  {
    if n < 10 then [Digit(n)] else NatText(n / 10) + [Digit(n % 10)]
  }

  /** Python's str() on an int. */
  function IntText(n: int): string {
    if n < 0 then "-" + NatText(-n) else NatText(n)
  }

  /** The length of the run of digits that starts `s`. */
  function DigitRun(s: string): (k: nat)
    ensures k <= |s|
  {
    if s == [] || !IsDigit(s[0]) then 0 else 1 + DigitRun(s[1..])
  }

  /** The number a string of digits spells. */
  function DigitsValue(d: string): nat
    requires forall k :: 0 <= k < |d| ==> IsDigit(d[k])
  {
    if d == [] then 0
    else
      assert IsDigit(d[|d| - 1]);
      DigitsValue(d[..|d| - 1]) * 10 + (d[|d| - 1] as int - '0' as int)
  }

  /** Reads back a non-negative number from the digits that start `body`,
      and what follows them. */
  function ReadNat(body: string): Option<(nat, string)> {
    var k := DigitRun(body);
    if k == 0 then None
    else
      var d := body[..k];
      assert forall i :: 0 <= i < |d| ==> IsDigit(d[i]) by {
        DigitRunDigits(body, k);
      }
      Some((DigitsValue(d), body[k..]))
  }

  /** Reads back a status from the text IntText writes, followed by whatever
      does not begin with a digit. */
  function ReadInt(s: string): Option<(int, string)> {
    var negative := s != [] && s[0] == '-';
    match ReadNat(if negative then s[1..] else s)
    case None => None
    case Some((n, rest)) => Some((if negative then -(n as int) else n as int, rest))
  }

  /** Recovers status and message from the text of an error. */
  function ParseDescription(s: string): Option<(int, string)> {
    if |s| < |Prefix| || s[..|Prefix|] != Prefix then None
    else
      match ReadInt(s[|Prefix|..])
      case None => None
      case Some((status, rest)) =>
        if |rest| < |Infix| || rest[..|Infix|] != Infix then None
        else Some((status, rest[|Infix|..]))
  }

  lemma {:induction false} DigitRunDigits(s: string, k: nat)
    requires k <= DigitRun(s)
    ensures forall i :: 0 <= i < k ==> IsDigit(s[i])
  {
    if k > 0 {
      DigitRunDigits(s[1..], k - 1);
      assert forall i :: 1 <= i < k ==> s[i] == s[1..][i - 1];
    }
  }

  lemma {:induction false} DigitRunOfDigits(d: string, t: string)
    requires forall k :: 0 <= k < |d| ==> IsDigit(d[k])
    requires t == [] || !IsDigit(t[0])
    ensures DigitRun(d + t) == |d|
  {
    if d != [] {
      assert (d + t)[1..] == d[1..] + t;
      DigitRunOfDigits(d[1..], t);
    } else {
      assert d + t == t;
    }
  }

  lemma {:induction false} DigitsValueOfNatText(n: nat)
    ensures DigitsValue(NatText(n)) == n
    decreases n
  {
    var s := NatText(n);
    if n >= 10 {
      assert s[..|s| - 1] == NatText(n / 10);
      DigitsValueOfNatText(n / 10);
    }
  }

  lemma ReadNatText(m: nat, t: string)
    requires t == [] || !IsDigit(t[0])
    ensures ReadNat(NatText(m) + t) == Some((m, t))
  {
    var d := NatText(m);
    DigitRunOfDigits(d, t);
    assert (d + t)[..|d|] == d;
    assert (d + t)[|d|..] == t;
    DigitsValueOfNatText(m);
  }

  /** A minus sign followed by digits that read back. */
  lemma ReadIntOfMinus(x: string, m: nat, t: string)
    requires ReadNat(x) == Some((m, t))
    ensures ReadInt("-" + x) == Some((-(m as int), t))
  {
    assert ("-" + x)[1..] == x;
  }

  /** Digits that read back, with no sign. */
  lemma ReadIntOfDigits(x: string, m: nat, t: string)
    requires x != [] && IsDigit(x[0]) && ReadNat(x) == Some((m, t))
    ensures ReadInt(x) == Some((m as int, t))
  {
  }

  lemma ReadIntNegative(n: int, t: string)
    requires n < 0 && (t == [] || !IsDigit(t[0]))
    ensures ReadInt(IntText(n) + t) == Some((n, t))
  {
    var m: nat := -n;
    ReadNatText(m, t);
    ReadIntOfMinus(NatText(m) + t, m, t);
    assert IntText(n) + t == "-" + (NatText(m) + t);
  }

  lemma ReadIntNonNegative(n: int, t: string)
    requires n >= 0 && (t == [] || !IsDigit(t[0]))
    ensures ReadInt(IntText(n) + t) == Some((n, t))
  {
    var d := NatText(n);
    assert (d + t)[0] == d[0] && IsDigit(d[0]);
    ReadNatText(n, t);
    ReadIntOfDigits(d + t, n, t);
  }

  lemma ReadIntText(n: int, t: string)
    requires t == [] || !IsDigit(t[0])
    ensures ReadInt(IntText(n) + t) == Some((n, t))
  {
    if n < 0 {
      ReadIntNegative(n, t);
    } else {
      ReadIntNonNegative(n, t);
    }
  }

  /** The text of an error gives back its status and message. */
  lemma DescribeParses(e: ApiError)
    ensures ParseDescription(Describe(e)) == Some((e.status, e.message))
  {
    var s := Describe(e);
    var t := Infix + e.message;
    assert s == Prefix + (IntText(e.status) + t);
    assert s[|Prefix|..] == IntText(e.status) + t;
    ReadIntText(e.status, t);
    assert t[..|Infix|] == Infix;
    assert t[|Infix|..] == e.message;
  }

  /** Two errors whose text is the same have the same status and message. */
  lemma DescribeInjective(a: ApiError, b: ApiError)
    requires Describe(a) == Describe(b)
    ensures a.status == b.status && a.message == b.message
  {
    DescribeParses(a);
    DescribeParses(b);
  }
}
