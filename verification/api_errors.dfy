/** Interpretation of failed API responses in
    `delivery_bobgo/models/delivery_bobgo.py`: picking the error detail out of
    a response and turning a status code and detail into a user message. */
module ApiErrors {
  import opened Base

  /** What `response.json()` yields: it raises for a body that is not JSON, and
      otherwise gives an object. `members` maps each key to `str()` of its
      value and `rendered` is `str()` of the whole object. */
  datatype JsonBody = Unparseable | JsonObject(members: map<string, string>, rendered: string)

  /** A response of the API: its status code, its parsed body and its raw text. */
  datatype HttpResponse = HttpResponse(status: nat, body: JsonBody, text: Char)

  /** The keys consulted for an error detail, most important first. */
  const DetailKeys: seq<string> := ["detail", "error", "message", "description"]
  const NoDetails: string := "No error details available"

  /** The value of the first of `keys` present in `m`. */
  function FirstPresent(keys: seq<string>, m: map<string, string>): Option<string>
  {
    if |keys| == 0 then None
    else if keys[0] in m then Some(m[keys[0]])
    else FirstPresent(keys[1..], m)
  }

  /** `FirstPresent` finds a value iff some key is present, and the value it
      finds belongs to the earliest present key. */
  lemma {:induction false} FirstPresentIsEarliest(keys: seq<string>, m: map<string, string>)
    ensures FirstPresent(keys, m).Some? <==> exists i :: 0 <= i < |keys| && keys[i] in m
    ensures FirstPresent(keys, m).Some? ==>
              exists i :: 0 <= i < |keys| && keys[i] in m && FirstPresent(keys, m).value == m[keys[i]]
                          && forall j :: 0 <= j < i ==> keys[j] !in m
  {
    if |keys| > 0 && keys[0] !in m {
      var tail := keys[1..];
      FirstPresentIsEarliest(tail, m);
      if FirstPresent(tail, m).Some? {
        var k :| 0 <= k < |tail| && tail[k] in m && FirstPresent(tail, m).value == m[tail[k]]
                 && forall j :: 0 <= j < k ==> tail[j] !in m;
        assert keys[k + 1] == tail[k];
        forall j | 0 <= j < k + 1
          ensures keys[j] !in m
        {
          if j > 0 {
            assert keys[j] == tail[j - 1];
          }
        }
      } else {
        forall i | 0 <= i < |keys|
          ensures keys[i] !in m
        {
          if i > 0 {
            assert keys[i] == tail[i - 1];
          }
        }
      }
    }
  }

  /** `_extract_error_detail`: the value of the first present key among
      detail, error, message and description; failing that the whole object;
      and for a body that is not JSON the response text or a fixed notice. */
  function ExtractErrorDetail(resp: HttpResponse): (r: string)
    ensures resp.body.Unparseable? && Truthy(resp.text) ==> r == resp.text.value
    ensures resp.body.Unparseable? && !Truthy(resp.text) ==> r == NoDetails
    ensures (resp.body.JsonObject? && forall i :: 0 <= i < |DetailKeys| ==> DetailKeys[i] !in resp.body.members)
              ==> r == resp.body.rendered
    ensures (resp.body.JsonObject? && exists i :: 0 <= i < |DetailKeys| && DetailKeys[i] in resp.body.members)
              ==> exists i :: 0 <= i < |DetailKeys| && DetailKeys[i] in resp.body.members
                              && r == resp.body.members[DetailKeys[i]]
                              && forall j :: 0 <= j < i ==> DetailKeys[j] !in resp.body.members
  {
    match resp.body
    case Unparseable => OrElse(resp.text, NoDetails)
    case JsonObject(members, rendered) =>
      FirstPresentIsEarliest(DetailKeys, members);
      match FirstPresent(DetailKeys, members)
      case Some(v) => v
      case None => rendered
  }

  /** A body carrying both a message and a detail reports the detail. */
  lemma DetailOutranksMessage(m: map<string, string>, rendered: string, text: Char, status: nat)
    requires "detail" in m && "message" in m
    ensures ExtractErrorDetail(HttpResponse(status, JsonObject(m, rendered), text)) == m["detail"]
  {
  }

  /** The decimal digit for `d`. */
  function DigitChar(d: nat): char
    requires d < 10
  {
    "0123456789"[d]
  }

  predicate IsDigit(c: char) {
    '0' <= c <= '9'
  }

  /** Python's `str()` of a non-negative integer. */
  function DecimalString(n: nat): (s: string)
    ensures |s| >= 1
    ensures forall i :: 0 <= i < |s| ==> IsDigit(s[i])
  {
    if n < 10 then [DigitChar(n)] else DecimalString(n / 10) + [DigitChar(n % 10)]
  }

  /** The number a string of decimal digits denotes. */
  function ParseDecimal(s: string): nat
  {
    if |s| == 0 then 0
    else
      var d := s[|s| - 1] as int - '0' as int;
      10 * ParseDecimal(s[..|s| - 1]) + (if 0 <= d < 10 then d else 0)
  }

  /** Reading back a rendered integer gives the integer. */
  lemma {:induction false} DecimalRoundTrip(n: nat)
    ensures ParseDecimal(DecimalString(n)) == n
  {
    if n >= 10 {
      var s := DecimalString(n);
      assert s[..|s| - 1] == DecimalString(n / 10);
      DecimalRoundTrip(n / 10);
    }
  }

  /** The number of leading decimal digits of `s`. */
  function DigitRun(s: string): (k: nat)
    ensures k <= |s|
  {
    if |s| > 0 && IsDigit(s[0]) then 1 + DigitRun(s[1..]) else 0
  }

  lemma {:induction false} DigitRunOfDigits(ds: string, t: string)
    requires forall i :: 0 <= i < |ds| ==> IsDigit(ds[i])
    requires t == [] || !IsDigit(t[0])
    ensures DigitRun(ds + t) == |ds|
  {
    if |ds| > 0 {
      assert (ds + t)[1..] == ds[1..] + t;
      DigitRunOfDigits(ds[1..], t);
    }
  }

  /** The status codes that have a message of their own. */
  const ListedCodes: set<nat> := {400, 401, 403, 429, 500, 502, 503}

  const GenericErrorPrefix: string := "Bobgo API returned error (HTTP "
  const GenericErrorInfix: string := "): "
  const FormatArgumentsError: string := "not all arguments converted during string formatting"

  /** The message for a status code without one of its own. */
  function GenericErrorMessage(status: nat, detail: string): string
  {
    GenericErrorPrefix + DecimalString(status) + GenericErrorInfix + detail
  }

  /** `_format_http_error` as written: every template is `%`-applied to the pair
      (status, detail). The listed templates hold one placeholder or none, so
      Python raises `TypeError` for them; only unlisted codes give a message. */
  function FormatHttpError(status: nat, detail: string): (r: Result<string>)
    ensures r.Err? <==> status in ListedCodes
    ensures r.Err? ==> r.error == TypeError(FormatArgumentsError)
    ensures r.Ok? ==> StartsWith(r.value, GenericErrorPrefix)
  {
    if status in ListedCodes then Err(TypeError(FormatArgumentsError))
    else Ok(GenericErrorMessage(status, detail))
  }

  /** `_format_http_error` as evidently intended: the listed codes get their
      own message (the one for 400 carrying the detail), all others the
      generic message with code and detail. */
  function FormatHttpErrorIntended(status: nat, detail: string): (r: string)
    ensures status == 400 ==> r == "Bad request to Bobgo API: " + detail
    ensures status !in ListedCodes ==> r == GenericErrorMessage(status, detail)
  {
    if status == 400 then "Bad request to Bobgo API: " + detail
    else if status == 401 then "Authentication failed. Please check your Bobgo API key."
    else if status == 403 then "Access forbidden. Your API key may not have the required permissions."
    else if status == 429 then "Rate limit exceeded. Please try again later."
    else if status == 500 then "Bobgo API server error. Please try again later."
    else if status == 502 then "Bobgo API is temporarily unavailable. Please try again later."
    else if status == 503 then "Bobgo API service is temporarily overloaded. Please try again later."
    else GenericErrorMessage(status, detail)
  }

  /** The written and the intended formatter agree wherever the written one
      returns, and the written one raises on exactly the listed codes. */
  lemma FormatHttpErrorDiscrepancy(status: nat, detail: string)
    ensures FormatHttpError(status, detail).Ok? ==> FormatHttpError(status, detail).value == FormatHttpErrorIntended(status, detail)
    ensures status in ListedCodes ==> FormatHttpError(status, detail).Err?
  {
  }

  /** A 400 response raises in the written formatter instead of reporting the
      bad request. */
  lemma BadRequestRaises()
    ensures FormatHttpError(400, "x").Err?
    ensures FormatHttpErrorIntended(400, "x") == "Bad request to Bobgo API: x"
  {
  }

  /** Reads a generic message back into its status code and detail. */
  function ParseGenericError(msg: string): Option<(nat, string)>
  {
    if !StartsWith(msg, GenericErrorPrefix) then None
    else
      var rest := msg[|GenericErrorPrefix|..];
      var k := DigitRun(rest);
      if k == 0 || !StartsWith(rest[k..], GenericErrorInfix) then None
      else Some((ParseDecimal(rest[..k]), rest[k + |GenericErrorInfix|..]))
  }

  /** The generic message loses nothing: code and detail can be read back. */
  lemma {:induction false} GenericErrorRoundTrip(status: nat, detail: string)
    ensures ParseGenericError(GenericErrorMessage(status, detail)) == Some((status, detail))
  {
    var ds := DecimalString(status);
    var msg := GenericErrorMessage(status, detail);
    assert msg == GenericErrorPrefix + (ds + (GenericErrorInfix + detail));
    var rest := msg[|GenericErrorPrefix|..];
    assert rest == ds + (GenericErrorInfix + detail);
    DigitRunOfDigits(ds, GenericErrorInfix + detail);
    assert rest[..|ds|] == ds;
    assert rest[|ds|..] == GenericErrorInfix + detail;
    DecimalRoundTrip(status);
  }
}
