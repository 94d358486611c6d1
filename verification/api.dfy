/**
 * The wire types of the mock (package `api`): the per-item result of a
 * batch, the error envelope, and the numeric error codes. The `*ToJson`
 * functions follow the types' JSON field tags; the `*FromJson` functions
 * read those shapes back.
 */
module Api {
  import opened Wrappers
  import opened Json

  // Error codes: 1xxx errors, offsets from a common base.
  const RequestBase: int := 1000
  const CodeInvalidBody: int := RequestBase + 1
  const CodeNotFound: int := RequestBase + 2
  const CodeMethodNotAllowed: int := RequestBase + 3
  const CodeRateLimitExceeded: int := RequestBase + 4
  const CodeFailedRequest: int := RequestBase + 5

  /** The sequence of all error codes, in declaration order. */
  const AllCodes: seq<int> :=
    [CodeInvalidBody, CodeNotFound, CodeMethodNotAllowed, CodeRateLimitExceeded, CodeFailedRequest]

  lemma CodeValues()
    ensures CodeInvalidBody == 1001 && CodeNotFound == 1002 && CodeMethodNotAllowed == 1003
    ensures CodeRateLimitExceeded == 1004 && CodeFailedRequest == 1005
  {
  }

  lemma CodesDistinctAboveBase()
    ensures forall i, j :: 0 <= i < j < |AllCodes| ==> AllCodes[i] != AllCodes[j]
    ensures forall i :: 0 <= i < |AllCodes| ==> AllCodes[i] > RequestBase
  {
  }

  /** A request inside a batch: an uninterpreted string-keyed object. */
  type SingleRequest = map<string, Json>

  /** One result inside a batch response: a status code and a serialised body. */
  datatype BatchResponse = BatchResponse(code: int, body: string)

  /** The content of an error response. */
  datatype HTTPErrorContent = HTTPErrorContent(message: string, code: int, id: string)

  /** The error response: all content nested under one `error` member. */
  datatype HTTPErrorResponse = HTTPErrorResponse(error: HTTPErrorContent)

  function MakeHTTPErrorResponse(msg: string, code: int, trackID: string): (r: HTTPErrorResponse)
    ensures r.error.message == msg && r.error.code == code && r.error.id == trackID
  {
    HTTPErrorResponse(HTTPErrorContent(msg, code, trackID))
  }

  function ErrorContentToJson(c: HTTPErrorContent): (j: Json)
    ensures j.JObject? && Keys(j.fields) == ["message", "code", "id"]
  {
    JObject([("message", JString(c.message)), ("code", JNumber(c.code)), ("id", JString(c.id))])
  }

  function ErrorResponseToJson(e: HTTPErrorResponse): (j: Json)
    ensures j.JObject? && Keys(j.fields) == ["error"] && j.fields[0].1 == ErrorContentToJson(e.error)
  {
    JObject([("error", ErrorContentToJson(e.error))])
  }

  function BatchResponseToJson(b: BatchResponse): (j: Json)
    ensures j.JObject? && Keys(j.fields) == ["code", "body"]
  {
    JObject([("code", JNumber(b.code)), ("body", JString(b.body))])
  }

  function BatchToJson(bs: seq<BatchResponse>): (j: Json)
    ensures j.JArray? && |j.elems| == |bs|
    ensures forall i :: 0 <= i < |bs| ==> j.elems[i] == BatchResponseToJson(bs[i])
  {
    JArray(seq(|bs|, i requires 0 <= i < |bs| => BatchResponseToJson(bs[i])))
  }

  function StringMember(fields: seq<(string, Json)>, key: string): Option<string> {
    match Lookup(fields, key)
    case Some(JString(s)) => Some(s)
    case _ => None
  }

  function NumberMember(fields: seq<(string, Json)>, key: string): Option<int> {
    match Lookup(fields, key)
    case Some(JNumber(n)) => Some(n)
    case _ => None
  }

  function ErrorResponseFromJson(j: Json): Option<HTTPErrorResponse> {
    if !j.JObject? then None
    else
      match Lookup(j.fields, "error")
      case Some(JObject(c)) =>
        var message :- StringMember(c, "message");
        var code :- NumberMember(c, "code");
        var id :- StringMember(c, "id");
        Some(HTTPErrorResponse(HTTPErrorContent(message, code, id)))
      case _ => None
  }

  function BatchResponseFromJson(j: Json): Option<BatchResponse> {
    if !j.JObject? then None
    else
      var code :- NumberMember(j.fields, "code");
      var body :- StringMember(j.fields, "body");
      Some(BatchResponse(code, body))
  }

  function BatchFromJson(elems: seq<Json>): Option<seq<BatchResponse>> {
    if |elems| == 0 then Some([])
    else
      var b :- BatchResponseFromJson(elems[0]);
      var rest :- BatchFromJson(elems[1..]);
      Some([b] + rest)
  }

  lemma ErrorResponseRoundTrip(e: HTTPErrorResponse)
    ensures ErrorResponseFromJson(ErrorResponseToJson(e)) == Some(e)
  {
    var c := ErrorContentToJson(e.error).fields;
    assert Lookup(ErrorResponseToJson(e).fields, "error") == Some(JObject(c));
    ErrorContentMembers(e.error);
  }

  /** The three members of a serialised error content read back as written. */
  lemma ErrorContentMembers(e: HTTPErrorContent)
    ensures StringMember(ErrorContentToJson(e).fields, "message") == Some(e.message)
    ensures NumberMember(ErrorContentToJson(e).fields, "code") == Some(e.code)
    ensures StringMember(ErrorContentToJson(e).fields, "id") == Some(e.id)
  {
    var c := ErrorContentToJson(e).fields;
    assert Lookup(c, "message") == Some(JString(e.message));
    assert Lookup(c, "code") == Some(JNumber(e.code));
    assert Lookup(c[1..], "id") == Some(JString(e.id));
  }

  lemma BatchResponseRoundTrip(b: BatchResponse)
    ensures BatchResponseFromJson(BatchResponseToJson(b)) == Some(b)
  {
    var f := BatchResponseToJson(b).fields;
    assert Lookup(f, "code") == Some(JNumber(b.code));
    assert Lookup(f, "body") == Some(JString(b.body));
  }

  lemma {:induction false} BatchRoundTrip(bs: seq<BatchResponse>)
    ensures BatchFromJson(BatchToJson(bs).elems) == Some(bs)
  {
    if |bs| > 0 {
      var elems := BatchToJson(bs).elems;
      BatchResponseRoundTrip(bs[0]);
      BatchRoundTrip(bs[1..]);
      assert elems[1..] == BatchToJson(bs[1..]).elems;
      assert bs == [bs[0]] + bs[1..];
    }
  }
}
