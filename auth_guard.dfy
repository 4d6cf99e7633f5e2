/**
 * src/auth/guards/auth.guard.ts: the bearer-header guard. The header is
 * split on spaces; the first part must be "Bearer", the second is the
 * token, which must pass the token validator and then verify. Only then
 * is the request let through, with `request.user` set to the payload.
 *
 * The validator (`authService.validateToken`) and the verifier
 * (`jwtService.verifyAsync`) are parameters.
 */
module AuthGuard {
  import opened Wrappers
  import opened JsText
  import opened Exceptions
  import opened SessionJwt

  const MISSING_HEADER := Unauthorized("Authorization header is missing")
  const WRONG_SCHEME := Unauthorized("Invalid authorization type. Expected \"Bearer\"")
  const INVALID_TOKEN := Unauthorized("Invalid token")

  /**
   * What the guard calls: the validator and the verifier both receive the
   * second part of the header, None where the header has no space.
   */
  datatype Checks = Checks(validate: Option<string> -> bool, verify: Option<string> -> Result<JwtPayload, Exception>)

  /** The first element of `header.split(' ')`: the text before the first space. */
  function Scheme(header: string): (scheme: string)
    ensures scheme == header[..IndexOf(header, ' ')]
    ensures ' ' !in scheme
  {
    Split(header, ' ')[0]
  }

  /**
   * The second element of `header.split(' ')`: the text between the first
   * and the second space, absent when there is no space at all.
   */
  function BearerToken(header: string): (token: Option<string>)
    ensures token.None? <==> ' ' !in header
    ensures token.Some? ==>
              var rest := header[IndexOf(header, ' ') + 1..];
              token.value == rest[..IndexOf(rest, ' ')]
    ensures token.Some? ==> ' ' !in token.value
  {
    var parts := Split(header, ' ');
    if |parts| >= 2 then
      assert parts[1] == Split(header[IndexOf(header, ' ') + 1..], ' ')[0];
      Some(parts[1])
    else None
  }

  /** A header whose first part is "Bearer" carries the token that follows it. */
  lemma BearerHeaderParts(token: string, trailer: string)
    requires ' ' !in token
    ensures Scheme("Bearer " + token) == "Bearer"
    ensures BearerToken("Bearer " + token) == Some(token)
    ensures BearerToken("Bearer " + token + " " + trailer) == Some(token)
  {
    IndexOfAfter("Bearer", ' ', token);
    assert "Bearer " + token == "Bearer" + [' '] + token;
    IndexOfAbsent(token, ' ');
    var h1 := "Bearer " + token;
    assert IndexOf(h1, ' ') == 6 && h1[6] == ' ';
    assert h1[7..] == token;
    assert token[..IndexOf(token, ' ')] == token;
    var h := "Bearer " + token + " " + trailer;
    assert h == "Bearer" + [' '] + (token + " " + trailer);
    IndexOfAfter("Bearer", ' ', token + " " + trailer);
    assert h[7..] == token + [' '] + trailer;
    IndexOfAfter(token, ' ', trailer);
    assert (token + [' '] + trailer)[..|token|] == token;
  }

  /**
   * The guard's decision for a request with the given header: the payload
   * the request is let through with, or the exception it throws. The
   * checks run in order: header present, scheme, validator, verifier; a
   * verifier failure is not caught.
   */
  function Decide(checks: Checks, authorization: Option<string>): (r: Result<JwtPayload, Exception>)
    ensures !Truthy(authorization) ==> r == Failure(MISSING_HEADER)
    ensures Truthy(authorization) && Scheme(authorization.value) != "Bearer" ==> r == Failure(WRONG_SCHEME)
    ensures Truthy(authorization) && Scheme(authorization.value) == "Bearer" ==>
              var token := BearerToken(authorization.value);
              && (!checks.validate(token) ==> r == Failure(INVALID_TOKEN))
              && (checks.validate(token) ==> r == checks.verify(token))
  {
    if !Truthy(authorization) then Failure(MISSING_HEADER)
    else
      var header := authorization.value;
      if Scheme(header) != "Bearer" then Failure(WRONG_SCHEME)
      else
        var token := BearerToken(header);
        if !checks.validate(token) then Failure(INVALID_TOKEN)
        else checks.verify(token)
  }

  /**
   * The only way through is a "Bearer" header whose token the validator
   * accepts and the verifier verifies, and the payload is the verified one.
   */
  lemma OnlyVerifiedTokensPass(checks: Checks, authorization: Option<string>)
    ensures Decide(checks, authorization).Success? ==>
              && Truthy(authorization)
              && StartsWith(authorization.value, "Bearer")
              && checks.validate(BearerToken(authorization.value))
              && Decide(checks, authorization) == checks.verify(BearerToken(authorization.value))
  {
    if Decide(checks, authorization).Success? {
      var h := authorization.value;
      assert h[..IndexOf(h, ' ')] == "Bearer";
      assert h[..6] == "Bearer";
    }
  }

  /** The request as the guard sees it: its header, and the user it attaches. */
  class HttpRequest {
    const authorization: Option<string>
    var user: Option<JwtPayload>

    constructor(authorization: Option<string>)
      ensures this.authorization == authorization && user == None
    {
      this.authorization := authorization;
      user := None;
    }
  }

  /**
   * `canActivate(context)`: true exactly when the decision is a payload,
   * which is then stored as `request.user`; a rejected request is left as
   * it was.
   */
  method CanActivate(checks: Checks, request: HttpRequest) returns (r: Result<bool, Exception>)
    modifies request
    ensures var d := Decide(checks, request.authorization);
      && (d.Success? ==> r == Success(true) && request.user == Some(d.value))
      && (d.Failure? ==> r == Failure(d.error) && request.user == old(request.user))
  {
    var d := Decide(checks, request.authorization);
    if d.Failure? {
      return Failure(d.error);
    }
    request.user := Some(d.value);
    return Success(true);
  }
}
