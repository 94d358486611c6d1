/**
 * The two authentication middlewares (package `authn`). Each one either
 * lets the request through to the next handler or answers 401 itself.
 */
module Authn {
  import opened Http

  /** The challenge sent with a rejected bearer token (RFC 6750, section 3). */
  const AuthenticateHeader: string :=
    "Bearer realm=\"example\", error=\"invalid_token\", error_description=\"invalid access token\""

  const BearerPrefix: string := "Bearer "

  /** Request headers by name; a name may carry several values. */
  type Headers = Values

  /** What a middleware does with a request: call the next handler, or respond
      itself with a status and the WWW-Authenticate values it adds. */
  datatype Decision = CallNext | Respond(status: int, wwwAuthenticate: seq<string>)

  /** `s` with one leading `prefix` removed, when it starts with it. */
  function TrimPrefix(s: string, prefix: string): (r: string)
    ensures prefix <= s ==> prefix + r == s
    ensures !(prefix <= s) ==> r == s
  {
    if prefix <= s then s[|prefix|..] else s
  }

  /** `ApiKeyAuth`: the next handler runs exactly when X-API-KEY equals the
      key; otherwise a bare 401, with no challenge. */
  function ApiKeyAuth(key: string, h: Headers): (d: Decision)
    ensures d == CallNext <==> FirstValue(h, "X-API-KEY") == key
    ensures d != CallNext ==> d == Respond(401, [])
  {
    if FirstValue(h, "X-API-KEY") != key then Respond(StatusUnauthorized, []) else CallNext
  }

  /** `BearerTokenAuth`: the next handler runs exactly when the Authorization
      header, with one "Bearer " removed if present, equals the token;
      otherwise 401 with the `invalid_token` challenge. */
  function BearerTokenAuth(token: string, h: Headers): (d: Decision)
    ensures d == CallNext <==>
      (var a := FirstValue(h, "Authorization");
       (BearerPrefix <= a && a[|BearerPrefix|..] == token) || (!(BearerPrefix <= a) && a == token))
    ensures d != CallNext ==> d == Respond(401, [AuthenticateHeader])
  {
    var authHeader := FirstValue(h, "Authorization");
    if TrimPrefix(authHeader, BearerPrefix) != token then
      Respond(StatusUnauthorized, [AuthenticateHeader])
    else
      CallNext
  }

  lemma BearerHeaderAccepted(token: string)
    ensures BearerTokenAuth(token, map["Authorization" := [BearerPrefix + token]]) == CallNext
  {
    var a := BearerPrefix + token;
    assert BearerPrefix <= a && a[|BearerPrefix|..] == token;
  }

  /** A header holding the bare token passes too, unless the token itself
      starts with "Bearer ". */
  lemma BareTokenAccepted(token: string)
    requires !(BearerPrefix <= token)
    ensures BearerTokenAuth(token, map["Authorization" := [token]]) == CallNext
  {
  }

  /** Only one prefix is stripped: "Bearer Bearer t" is compared as "Bearer t". */
  lemma OnlyOnePrefixStripped(token: string)
    ensures BearerTokenAuth(token, map["Authorization" := ["Bearer Bearer t"]]) == CallNext
      <==> token == "Bearer t"
  {
    var a := "Bearer Bearer t";
    assert BearerPrefix <= a && a[|BearerPrefix|..] == "Bearer t";
  }

  /** A missing header reads as "": rejected by a non-empty key or token,
      accepted by an empty one. */
  lemma MissingHeader(secret: string)
    ensures ApiKeyAuth(secret, map[]) == (if secret == "" then CallNext else Respond(401, []))
    ensures BearerTokenAuth(secret, map[]) ==
      (if secret == "" then CallNext else Respond(401, [AuthenticateHeader]))
  {
    assert !(BearerPrefix <= "");
  }
}
