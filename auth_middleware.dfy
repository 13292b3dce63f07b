/**
 * The bearer-token gate (backend/internal/middleware/auth_middleware.go). The header is
 * a simplified form of the `Authorization: Bearer <token>` syntax of section 2.1 of
 * RFC 6750: exactly one space, and the scheme spelled exactly "Bearer". Token
 * validation is a parameter; the request context is an object whose keys the
 * middleware sets.
 */
module AuthMiddleware {
  import opened Wrappers
  import opened Text

  /** What a valid token carries. */
  datatype Claims = Claims(userId: int, username: string)

  /** The header checks: present, then split on " " into exactly "Bearer" and the token. */
  function BearerToken(header: string): (r: Result<string>)
    ensures header == "" ==> r == Err("Authorization header required")
    ensures header != "" && r.Err? ==> r == Err("Invalid authorization header format")
    ensures r.Ok? ==> ' ' !in r.value
  {
    if header == "" then Err("Authorization header required")
    else
      var parts := Split(header, ' ');
      if |parts| != 2 || parts[0] != "Bearer" then Err("Invalid authorization header format")
      else Ok(parts[1])
  }

  /**
   * A header is accepted with token `token` exactly when it is "Bearer", one space and a
   * token without spaces: a doubled or trailing space, another capitalisation of the
   * scheme or a missing scheme is refused.
   */
  lemma BearerIff(header: string, token: string)
    ensures BearerToken(header) == Ok(token) <==> header == "Bearer " + token && ' ' !in token
  {
    if header == "Bearer " + token && ' ' !in token {
      assert header == "Bearer" + [' '] + token;
      SplitNone(token, ' ');
      SplitAt("Bearer", ' ', token);
    }
    if BearerToken(header) == Ok(token) {
      var parts := Split(header, ' ');
      JoinSplit(header, ' ');
      assert Join(parts, " ") == parts[0] + " " + Join(parts[1..], " ");
      assert parts[1..] == [token];
    }
  }

  datatype ContextValue = IntValue(i: int) | StrValue(s: string)

  /** The per-request context: the keys handlers read, and whether the chain was stopped with a 401. */
  class RequestContext {
    var keys: map<string, ContextValue>
    var aborted: bool
    var unauthorized: Option<string>

    constructor ()
      ensures keys == map[] && !aborted && unauthorized == None
    {
      keys := map[];
      aborted := false;
      unauthorized := None;
    }

    /** `GetUserID`: the id the middleware stored, or (0, false) when none was. */
    function GetUserId(): (r: (int, bool))
      reads this
      requires "user_id" in keys ==> keys["user_id"].IntValue?
      ensures r.1 <==> "user_id" in keys
      ensures !r.1 ==> r.0 == 0
      ensures r.1 ==> keys["user_id"] == IntValue(r.0)
    {
      if "user_id" in keys then (keys["user_id"].i, true) else (0, false)
    }

    /** Answer 401 with `msg` and stop the chain. */
    method Reject(msg: string)
      modifies this
      ensures keys == old(keys) && aborted && unauthorized == Some(msg)
    {
      unauthorized := Some(msg);
      aborted := true;
    }
  }

  /**
   * `AuthMiddleware`: a request passes exactly when its header holds a bearer token that
   * validates; it then carries the token's user id and name, and otherwise it is
   * answered 401 with the first failing check's message and goes no further.
   */
  method Authenticate(c: RequestContext, header: string, validate: string -> Option<Claims>) returns (passed: bool)
    modifies c
    ensures passed <==> BearerToken(header).Ok? && validate(BearerToken(header).value).Some?
    ensures passed ==> var claims := validate(BearerToken(header).value).value;
              && c.keys == old(c.keys)["user_id" := IntValue(claims.userId)]["username" := StrValue(claims.username)]
              && c.aborted == old(c.aborted) && c.unauthorized == old(c.unauthorized)
              && c.GetUserId() == (claims.userId, true)
    ensures BearerToken(header).Err? ==>
              (!passed && c.keys == old(c.keys) && c.aborted && c.unauthorized == Some(BearerToken(header).msg))
    ensures BearerToken(header).Ok? && !passed ==>
              (c.keys == old(c.keys) && c.aborted && c.unauthorized == Some("Invalid or expired token"))
  {
    var token := BearerToken(header);
    if token.Err? {
      c.Reject(token.msg);
      return false;
    }
    var claims := validate(token.value);
    if claims.None? {
      c.Reject("Invalid or expired token");
      return false;
    }
    c.keys := c.keys["user_id" := IntValue(claims.value.userId)];
    c.keys := c.keys["username" := StrValue(claims.value.username)];
    passed := true;
  }
}
