/** Shapes shared by the two proxy route handlers: the decoded query string of
    a request, JavaScript truthiness of an optional string, decimal rendering of
    an HTTP status code, the request sent to the robot, the abstract outcome of
    that request, and the response the handler returns. */
module Http {

  datatype Option<+T> = None | Some(value: T)

  /** The decoded name/value pairs of a query string (or a header list), in order. */
  type Pairs = seq<(string, string)>

  /** `URLSearchParams.get(key)`: the value of the FIRST pair named `key`, or null. */
  function Get(ps: Pairs, key: string): (r: Option<string>)
    ensures r.Some? ==> (key, r.value) in ps
  {
    if ps == [] then None
    else if ps[0].0 == key then Some(ps[0].1)
    else Get(ps[1..], key)
  }

  /** `Get` answers null exactly when no pair has the name, and otherwise the value
      of the first pair that has it. */
  lemma {:induction false} GetFirstMatch(ps: Pairs, key: string)
    ensures Get(ps, key).None? <==> forall i :: 0 <= i < |ps| ==> ps[i].0 != key
    ensures Get(ps, key).Some? ==>
              exists i :: 0 <= i < |ps| && ps[i] == (key, Get(ps, key).value) &&
                          forall j :: 0 <= j < i ==> ps[j].0 != key
  {
    if ps != [] && ps[0].0 != key {
      GetFirstMatch(ps[1..], key);
      assert forall i :: 1 <= i < |ps| ==> ps[i] == ps[1..][i - 1];
      if Get(ps, key).Some? {
        var i :| 0 <= i < |ps[1..]| && ps[1..][i] == (key, Get(ps, key).value) &&
                 forall j :: 0 <= j < i ==> ps[1..][j].0 != key;
        assert ps[i + 1] == (key, Get(ps, key).value);
        assert forall j :: 0 <= j < i + 1 ==> ps[j].0 != key by {
          forall j | 0 <= j < i + 1 ensures ps[j].0 != key {
            if j > 0 { assert ps[j] == ps[1..][j - 1]; }
          }
        }
      }
    }
  }

  /** JavaScript truthiness of `string | null`: null and "" are falsy. */
  predicate Truthy(v: Option<string>) {
    v.Some? && v.value != ""
  }

  /** The JavaScript expression `v || d` for `v: string | null`. */
  function OrDefault(v: Option<string>, d: string): (r: string)
    ensures Truthy(v) ==> r == v.value
    ensures !Truthy(v) ==> r == d
  {
    if v.Some? && v.value != "" then v.value else d
  }

  predicate IsDigit(c: char) {
    '0' <= c <= '9'
  }

  predicate IsDecimal(s: string) {
    forall i :: 0 <= i < |s| ==> IsDigit(s[i])
  }

  function DigitChar(d: nat): (c: char)
    requires d < 10
    ensures IsDigit(c) && (c as int) - ('0' as int) == d
  {
    "0123456789"[d]
  }

  /** The number a string of decimal digits denotes. */
  function DecimalValue(s: string): nat
    requires IsDecimal(s)
  {
    if s == [] then 0
    else DecimalValue(s[..|s| - 1]) * 10 + ((s[|s| - 1] as int) - ('0' as int))
  }

  /** `${n}` for a non-negative integer: its shortest decimal representation. */
  function NatToString(n: nat): (s: string)
    ensures |s| >= 1 && IsDecimal(s)
    ensures s[0] == '0' ==> n == 0 && s == "0"
    ensures DecimalValue(s) == n
    decreases n
  {
    if n < 10 then [DigitChar(n)]
    else
      var prefix := NatToString(n / 10);
      var s := prefix + [DigitChar(n % 10)];
      assert s[..|s| - 1] == prefix;
      s
  }

  lemma NatToStringInjective(a: nat, b: nat)
    requires NatToString(a) == NatToString(b)
    ensures a == b
  {
  }

  /** `response.ok` of the Fetch standard: the status is in the range 200-299. */
  predicate IsOk(status: nat) {
    200 <= status <= 299
  }

  /** What a handler asks `fetch` for. `timeoutMs` is the `AbortSignal.timeout` bound, if any. */
  datatype UpstreamRequest = UpstreamRequest(
    url: string,
    verb: string,
    headers: Pairs,
    timeoutMs: Option<nat>)

  /** The abstract result of `fetch`: the robot answered with a status, an optional
      Content-Type header and a body, or `fetch` threw (message None when the thrown
      value is not an `Error`). */
  datatype Outcome<B> =
    | Responded(status: nat, contentType: Option<string>, body: B)
    | Threw(message: Option<string>)

  datatype Body<B> =
    | Empty                  // `new NextResponse(null, …)`
    | ErrorJson(error: string) // `NextResponse.json({ error })`
    | Data(data: B)          // the robot's body, relayed

  datatype Response<B> = Response(status: nat, headers: Pairs, body: Body<B>)

  /** One request handled: the upstream request issued (None when none was), and the reply. */
  datatype Exchange<B> = Exchange(request: Option<UpstreamRequest>, response: Response<B>)

  /** The text a handler reports for a thrown value: the message of an `Error`,
      and "Unknown error" for anything else. */
  function ThrownText(message: Option<string>): (r: string)
    ensures message.Some? ==> r == message.value
    ensures message.None? ==> r == "Unknown error"
  {
    match message
    case Some(m) => m
    case None => "Unknown error"
  }
}
