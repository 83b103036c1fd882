/** JSON values as the server receives them from its JSON body parser and
    stores them through its JSON value encoding, together with the two pieces
    of JavaScript semantics the store relies on: truthiness (`!!x`) and the
    conversion of a value to a property key (`String(x)`), which is what
    lodash's groupBy does with the value its iteratee returns. */
module JsValue {

  /** A parsed JSON value. Numbers are restricted to integers, held
      exactly. */
  datatype Json =
    | JNull
    | JBool(b: bool)
    | JNum(n: int)
    | JStr(s: string)
    | JArr(items: seq<Json>)
    | JObj(fields: map<string, Json>)

  /** JavaScript truthiness: null, false, 0 and "" are falsy; arrays and
      objects (even empty ones) are truthy. */
  predicate Truthy(j: Json) {
    match j
    case JNull => false
    case JBool(b) => b
    case JNum(n) => n != 0
    case JStr(s) => s != []
    case JArr(_) => true
    case JObj(_) => true
  }

  predicate IsDigit(c: char) {
    '0' <= c <= '9'
  }

  function DigitChar(d: nat): (c: char)
    requires d < 10
    ensures IsDigit(c) && c as int - '0' as int == d
  {
    ('0' as int + d) as char
  }

  /** The number a string of decimal digits denotes. */
  function DecimalValue(s: string): nat
    requires forall i | 0 <= i < |s| :: IsDigit(s[i])
  {
    if s == [] then 0
    else
      var last := s[|s| - 1];
      assert IsDigit(last);
      10 * DecimalValue(s[..|s| - 1]) + (last as int - '0' as int)
  }

  /** Decimal notation of a natural number: digits only, denoting `n`, and
      without a leading zero unless `n` is zero. */
  function NatToString(n: nat): (r: string)
    ensures 1 <= |r| && forall i | 0 <= i < |r| :: IsDigit(r[i])
    ensures DecimalValue(r) == n
    ensures r[0] == '0' ==> n == 0
  {
    if n < 10 then [DigitChar(n)]
    else
      var front := NatToString(n / 10);
      var r := front + [DigitChar(n % 10)];
      assert r[..|r| - 1] == front;
      r
  }

  /** `String(i)` for an integer: a minus sign before the digits of a
      negative number. */
  function IntToString(i: int): (r: string)
    ensures 1 <= |r|
    ensures r[0] == '-' <==> i < 0
    ensures i < 0 ==> r[1..] == NatToString(-i)
    ensures i >= 0 ==> r == NatToString(i)
  {
    if i < 0 then "-" + NatToString(-i) else NatToString(i)
  }

  /** Distinct numbers have distinct keys. */
  lemma IntToStringInjective(a: int, b: int)
    ensures IntToString(a) == IntToString(b) <==> a == b
  {
    if IntToString(a) == IntToString(b) {
      if a < 0 {
        assert DecimalValue(IntToString(a)[1..]) == -a;
      } else {
        assert DecimalValue(IntToString(a)) == a;
      }
    }
  }

  /** Whether `String(j)` throws a TypeError. An object with its own
      `toString` field (never a function in parsed JSON) falls back on
      `valueOf`, which returns the object itself, so no primitive is found.
      An array converts through `join`, which converts each element that is
      not null. */
  predicate KeyThrows(j: Json) {
    match j
    case JObj(fields) => "toString" in fields
    case JArr(items) => exists i | 0 <= i < |items| :: KeyThrows(items[i])
    case _ => false
  }

  /** `String(j)`: the property key under which an object indexes by `j`.
      An array converts as `items.join(",")`. Where `KeyThrows(j)` the
      conversion throws and the value here is not used. */
  function ToKey(j: Json): string
  {
    match j
    case JNull => "null"
    case JBool(b) => if b then "true" else "false"
    case JNum(n) => IntToString(n)
    case JStr(s) => s
    case JArr(items) => JoinKeys(items)
    case JObj(_) => "[object Object]"
  }

  /** `items.join(",")`, where null elements become empty strings. */
  function JoinKeys(items: seq<Json>): string
  {
    if |items| == 0 then ""
    else
      var last := items[|items| - 1];
      var key := if last.JNull? then "" else ToKey(last);
      if |items| == 1 then key else JoinKeys(items[..|items| - 1]) + "," + key
  }
}
