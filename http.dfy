/** The JSON bodies and status codes the route handlers answer with. */
module Http {
  import opened Wrappers

  /** The JSON values that occur in requests and responses (numbers are integers here). */
  datatype Json =
    | JStr(str: string)
    | JBool(b: bool)
    | JNum(num: int)
    | JNull
    | JArr(items: seq<Json>)
    | JObj(fields: map<string, Json>)

  /** An HTTP response: its status code and its JSON object body. */
  datatype Response = Response(status: int, body: map<string, Json>)

  /** `NextResponse.json({ success: false, error: message }, { status })` */
  function ErrorResponse(status: int, message: string): Response
  {
    Response(status, map["success" := JBool(false), "error" := JStr(message)])
  }

  /** `NextResponse.json({ success: true, message, port: path })` */
  function MessageResponse(message: string, path: string): Response
  {
    Response(200, map["success" := JBool(true), "message" := JStr(message), "port" := JStr(path)])
  }

  /** The decimal numeral of a natural number, most significant digit first. */
  function Digits(n: nat): (s: string)
    ensures |s| > 0
    ensures forall k | 0 <= k < |s| :: '0' <= s[k] <= '9'
    decreases n
  {
    var last := (('0' as int) + n % 10) as char;
    if n < 10 then [last] else Digits(n / 10) + [last]
  }

  /** `String(n)` for an integer: an optional minus sign and the digits. */
  function Decimal(n: int): (s: string)
    ensures |s| > 0 && (s[0] == '-' || '0' <= s[0] <= '9')
  {
    if n < 0 then "-" + Digits(-n) else Digits(n)
  }

  /** The TypeError JavaScript throws when an object has no usable `toString` or `valueOf`. */
  const NoPrimitiveMessage: string := "Cannot convert object to primitive value"

  /**
   * `elements.join(",")` over the elements' conversions, evaluated left to
   * right: the first conversion that throws makes the join throw.
   */
  function JoinKeys(keys: seq<Result<string, string>>): (r: Result<string, string>)
    ensures r.Failure? <==> exists i | 0 <= i < |keys| :: keys[i].Failure?
    ensures r.Failure? ==> r in keys
    ensures |keys| == 1 ==> r == keys[0]
  {
    if |keys| == 0 then Success("")
    else if keys[0].Failure? || |keys| == 1 then keys[0]
    else
      var rest := JoinKeys(keys[1..]);
      assert forall i | 1 <= i < |keys| :: keys[i] == keys[1..][i - 1];
      match rest
      case Failure(e) => Failure(e)
      case Success(tail) => Success(keys[0].value + "," + tail)
  }

  /**
   * The string JavaScript converts a value to when it indexes an object
   * (`obj[value]`), or the TypeError that conversion throws. Strings stand
   * for themselves; an array joins its elements' conversions with commas
   * (null elements become empty); an object converts through its `toString`,
   * which a parsed object inherits as "[object Object]" unless it has an
   * own "toString" key: that value is not callable, the inherited `valueOf`
   * yields the object itself, and the conversion throws.
   */
  function PropertyKey(j: Json): (r: Result<string, string>)
    ensures j.JStr? ==> r == Success(j.str)
    ensures j.JObj? ==> (r.Failure? <==> "toString" in j.fields)
    ensures r.Failure? ==> r.error == NoPrimitiveMessage
    ensures j.JArr? ==> (r.Failure? <==> exists i | 0 <= i < |j.items| :: PropertyKey(j.items[i]).Failure?)
    decreases j
  {
    match j
    case JStr(s) => Success(s)
    case JBool(b) => Success(if b then "true" else "false")
    case JNum(n) => Success(Decimal(n))
    case JNull => Success("null")
    case JArr(items) =>
      var keys := seq(|items|, i requires 0 <= i < |items| => if items[i].JNull? then Success("") else PropertyKey(items[i]));
      assert forall i | 0 <= i < |items| :: keys[i].Failure? <==> PropertyKey(items[i]).Failure?;
      JoinKeys(keys)
    case JObj(fields) =>
      if "toString" in fields then Failure(NoPrimitiveMessage) else Success("[object Object]")
  }
}
