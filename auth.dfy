/**
 * verify_token: the backend accepts `Authorization: Bearer <token>` (the header form of
 * section 2.1 of RFC 6750). The scheme must be spelled exactly "Bearer" followed by one
 * space; unlike the case-insensitive scheme matching of section 2.1 of RFC 7235, "bearer"
 * or "BEARER" is refused. Any non-empty token is accepted and maps to the development user.
 */
module Auth {
  import opened Wrappers

  /** FastAPI's HTTPException: a status code and its detail text. */
  datatype HttpError = HttpError(status: int, detail: string)

  const BearerPrefix: string := "Bearer "
  const DevUserId: string := "dev_user_001"

  /** `s.split(" ", 1)[1]`: everything after the first space. */
  function AfterFirstSpace(s: string): string
    requires ' ' in s
  {
    if s[0] == ' ' then s[1..] else AfterFirstSpace(s[1..])
  }

  /** verify_token: the user id for an accepted header, or the 401 it raises. */
  function VerifyToken(authorization: string): (r: Result<string, HttpError>)
    ensures r.Ok? <==> BearerPrefix <= authorization && |authorization| > |BearerPrefix|
    ensures r.Ok? ==> r.value == DevUserId
    ensures !(BearerPrefix <= authorization) ==> r == Err(HttpError(401, "Invalid authorization header"))
    ensures authorization == BearerPrefix ==> r == Err(HttpError(401, "Missing token"))
  {
    if !(BearerPrefix <= authorization) then Err(HttpError(401, "Invalid authorization header"))
    else
      assert authorization[6] == ' ';
      TokenIsRestOfHeader(authorization);
      var token := AfterFirstSpace(authorization);
      if token == "" then Err(HttpError(401, "Missing token")) else Ok(DevUserId)
  }

  lemma {:induction false} AfterFirstSpaceSkips(p: string, t: string)
    requires ' ' !in p
    ensures ' ' in p + " " + t && AfterFirstSpace(p + " " + t) == t
  {
    var s := p + " " + t;
    assert s[|p|] == ' ';
    if p != [] {
      assert s[1..] == p[1..] + " " + t;
      AfterFirstSpaceSkips(p[1..], t);
    }
  }

  /** The token is the whole rest of the header after "Bearer ", spaces included. */
  lemma TokenIsRestOfHeader(authorization: string)
    requires BearerPrefix <= authorization
    ensures ' ' in authorization && AfterFirstSpace(authorization) == authorization[|BearerPrefix|..]
  {
    assert authorization == "Bearer" + " " + authorization[7..];
    AfterFirstSpaceSkips("Bearer", authorization[7..]);
  }

  /** The scheme is matched case-sensitively: a lower-case "bearer" is refused whatever follows. */
  lemma SchemeIsCaseSensitive(token: string)
    ensures VerifyToken("bearer " + token) == Err(HttpError(401, "Invalid authorization header"))
  {
    assert ("bearer " + token)[0] != BearerPrefix[0];
  }
}
