/** `_request`: the URL a request goes to and how the status of its response
    decides between a body and a raised API error. */
module Requests {
  import opened Json
  import opened Errors

  datatype HttpMethod = GET | POST | DELETE

  /** A request as issued: method, full URL and JSON body (None sends no body). */
  datatype Request = Request(verb: HttpMethod, url: string, body: Option<Value>)

  /** A response from the scanner: its status, its text, and the JSON its
      text decodes to. */
  datatype Reply = Reply(status: int, text: string, json: Value)

  /** What `_request` makes of a response. */
  datatype Received = Body(value: Value) | Raised(error: ApiError)

  /** What a client operation ends with: a value, an API error, or another
      Python exception. */
  datatype Outcome<+T> = Returned(value: T) | ApiFailure(apiError: ApiError) | PyFailure(pyError: PyError)

  const Scheme := "https://"
  const ApiRoot := "/api/v1/"

  /** `f"https://{endpoint}/api/v1/{path}"`. */
  function Url(endpoint: string, path: string): (u: string)
    ensures |u| == |Scheme| + |endpoint| + |ApiRoot| + |path|
    ensures u[..|Scheme|] == Scheme && u[|Scheme|..|Scheme| + |endpoint|] == endpoint
    ensures u[|Scheme| + |endpoint|..|Scheme| + |endpoint| + |ApiRoot|] == ApiRoot
    ensures u[|u| - |path|..] == path
  {
    Scheme + endpoint + ApiRoot + path
  }

  /** Two requests to the same endpoint go to the same URL only for the same path. */
  lemma UrlInjective(endpoint: string, p: string, q: string)
    requires Url(endpoint, p) == Url(endpoint, q)
    ensures p == q
  {
    var n := |Scheme| + |endpoint| + |ApiRoot|;
    assert p == Url(endpoint, p)[n..];
    assert q == Url(endpoint, q)[n..];
  }

  /** Status handling: 204 gives an empty dict, a status outside 200..299
      raises the class ERROR_MAP names (the base class for any other status)
      with the status and the response text, and any other 2xx gives the
      decoded JSON. */
  function Classify(r: Reply): (rec: Received)
    ensures r.status == 204 ==> rec == Body(Object(map[]))
    ensures rec.Raised? <==> !(200 <= r.status < 300)
    ensures rec.Raised? ==> rec.error == ApiError(ClassFor(r.status), r.status, r.text)
    ensures rec.Body? && r.status != 204 ==> rec.value == r.json
  {
    if r.status == 204 then Body(Object(map[]))
    else if !(200 <= r.status < 300) then Raised(ApiError(ClassFor(r.status), r.status, r.text))
    else Body(r.json)
  }

  /** A raised error carries a mapped subclass exactly for the eleven statuses
      of ERROR_MAP; each is an AcunetixAPIError, so one handler catches all. */
  lemma RaisedClass(r: Reply)
    requires Classify(r).Raised?
    ensures Classify(r).error.cls == AcunetixApiError <==> r.status !in ErrorMap
    ensures Classify(r).error.status == r.status && Classify(r).error.message == r.text
  {
    ErrorMapShape();
  }

  /** `key in s` on two strings: `key` occurs in `s` as a substring. */
  predicate Occurs(key: string, s: string)
    decreases |s|
  {
    |key| <= |s| && (s[..|key|] == key || (s != [] && Occurs(key, s[1..])))
  }

  /** `key` spells the window of `s` that starts at `i`. */
  predicate OccursAtIndex(key: string, s: string, i: int) {
    0 <= i <= |s| - |key| && s[i..i + |key|] == key
  }

  /** Occurs is the substring test: some window of `s` spells `key`. */
  lemma {:induction false} OccursAt(key: string, s: string)
    ensures Occurs(key, s) <==> exists i :: OccursAtIndex(key, s, i)
    decreases |s|
  {
    if |key| <= |s| && s != [] {
      OccursAt(key, s[1..]);
      if Occurs(key, s[1..]) {
        var i :| OccursAtIndex(key, s[1..], i);
        assert s[i + 1..i + 1 + |key|] == s[1..][i..i + |key|];
        assert OccursAtIndex(key, s, i + 1);
      }
      if s[..|key|] == key {
        assert OccursAtIndex(key, s, 0);
      }
      if exists i :: OccursAtIndex(key, s, i) {
        var i :| OccursAtIndex(key, s, i);
        if i > 0 {
          assert s[1..][i - 1..i - 1 + |key|] == s[i..i + |key|];
          assert OccursAtIndex(key, s[1..], i - 1);
        } else {
          assert s[..|key|] == s[i..i + |key|];
        }
      }
    } else if |key| <= |s| {
      assert s[..|key|] == s[0..0 + |key|];
      assert OccursAtIndex(key, s, 0);
    }
  }

  /** What Python's `in` accepts on the right: a dict, a list or a string. */
  predicate Iterable(v: Value) {
    v.Object? || v.Array? || v.Str?
  }

  /** `key in v`: a key of a dict, an element of a list, a substring of a
      string. */
  predicate Holds(v: Value, key: string) {
    match v
    case Object(fields) => key in fields
    case Array(items) => Str(key) in items
    case Str(s) => Occurs(key, s)
    case _ => false
  }

  /** `"<key>" not in response` followed by `response["<key>"]`. The test is
      on whatever the body is: anything `in` cannot search raises TypeError,
      a body without the key raises ValueError("Invalid response"), and a
      list or string that holds it cannot be indexed by a string. */
  function ResponseId(response: Value, key: string): (r: Result<string>)
    ensures r.Ok? <==> response.Object? && key in response.fields && response.fields[key].Str?
    ensures r.Ok? ==> response.fields[key] == Str(r.value)
    ensures r == Fail(ValueError("Invalid response")) <==> Iterable(response) && !Holds(response, key)
    ensures !Iterable(response) ==> r.Fail? && r.error.TypeError?
    ensures (response.Array? || response.Str?) && Holds(response, key) ==> r.Fail? && r.error.TypeError?
  {
    match response
    case Null => Fail(TypeError("argument of type 'NoneType' is not iterable"))
    case Bool(_) => Fail(TypeError("argument of type 'bool' is not iterable"))
    case Int(_) => Fail(TypeError("argument of type 'int' is not iterable"))
    case Array(items) =>
      if Str(key) !in items then Fail(ValueError("Invalid response"))
      else Fail(TypeError("list indices must be integers or slices, not str"))
    case Str(s) =>
      if !Occurs(key, s) then Fail(ValueError("Invalid response"))
      else Fail(TypeError("string indices must be integers"))
    case Object(fields) =>
      if key !in fields then Fail(ValueError("Invalid response"))
      else AsString(fields[key])
  }
}
