// The `auth` middleware: the token is taken from the Authorization header by
// removing the first "Bearer ", and then verified. Token verification (the
// signature and expiry check of `jwt.verify`) is a function parameter.

module AuthMiddleware {
  import opened Common

  const Bearer: string := "Bearer "

  const NotLoggedIn: HttpError := HttpError(401, "Access denied. Please log in.")
  const InvalidToken: HttpError := HttpError(400, "Invalid token. Session may have expired.")

  /** `jwt.verify(token, secret)`: the payload, or `None` where it throws. */
  type Verifier = string -> Option<TokenPayload>

  predicate OccursAt(s: string, pat: string, i: nat) {
    i + |pat| <= |s| && s[i..i + |pat|] == pat
  }

  /** The first position where `pat` occurs in `s`. */
  function IndexOf(s: string, pat: string): (r: Option<nat>)
    ensures r.Some? ==> OccursAt(s, pat, r.value)
    ensures r.Some? ==> forall j :: 0 <= j < r.value ==> !OccursAt(s, pat, j)
    ensures r.None? ==> forall j :: 0 <= j <= |s| ==> !OccursAt(s, pat, j)
  {
    IndexFrom(s, pat, 0)
  }

  function IndexFrom(s: string, pat: string, i: nat): (r: Option<nat>)
    requires i <= |s| + 1
    requires forall j :: 0 <= j < i ==> !OccursAt(s, pat, j)
    ensures r.Some? ==> i <= r.value && OccursAt(s, pat, r.value)
    ensures r.Some? ==> forall j :: 0 <= j < r.value ==> !OccursAt(s, pat, j)
    ensures r.None? ==> forall j :: 0 <= j <= |s| ==> !OccursAt(s, pat, j)
    decreases |s| + 1 - i
  {
    if i > |s| then None
    else if OccursAt(s, pat, i) then Some(i)
    else IndexFrom(s, pat, i + 1)
  }

  /** `header.replace('Bearer ', '')`: a string pattern replaces its first occurrence only. */
  function StripBearer(header: string): (r: string)
    ensures IndexOf(header, Bearer).None? ==> r == header
    ensures IndexOf(header, Bearer).Some? ==> |r| == |header| - |Bearer|
    ensures IndexOf(header, Bearer).Some? ==>
      var i := IndexOf(header, Bearer).value;
      r[..i] == header[..i] && r[i..] == header[i + |Bearer|..]
  {
    match IndexOf(header, Bearer)
    case None => header
    case Some(i) => header[..i] + header[i + |Bearer|..]
  }

  /** What the middleware does with a request: pass it on with `req.user`, or answer it. */
  datatype AuthOutcome = Next(user: TokenPayload) | Reject(error: HttpError)

  function Authenticate(header: Option<string>, verify: Verifier): (r: AuthOutcome)
    ensures r.Next? <==> (
      && header.Some? && StripBearer(header.value) != ""
      && verify(StripBearer(header.value)).Some?)
    ensures r.Next? ==> r.user == verify(StripBearer(header.value)).value
    ensures r.Reject? && r.error.status == 401 <==> (header.None? || StripBearer(header.value) == "")
    ensures r.Reject? ==> r.error == NotLoggedIn || r.error == InvalidToken
  {
    if header.None? then Reject(NotLoggedIn)
    else
      var token := StripBearer(header.value);
      if token == "" then Reject(NotLoggedIn)
      else
        match verify(token)
        case None => Reject(InvalidToken)
        case Some(payload) => Next(payload)
  }

  /** The header the client sends, "Bearer " followed by the token, yields exactly that token. */
  lemma BearerRoundTrip(token: string)
    ensures StripBearer(Bearer + token) == token
  {
    var h := Bearer + token;
    assert OccursAt(h, Bearer, 0);
    assert IndexOf(h, Bearer) == Some(0);
  }

  /** A signed token sent as "Bearer <token>" that verifies lets the request through with its payload. */
  lemma SignedTokenPasses(token: string, verify: Verifier)
    requires token != "" && verify(token).Some?
    ensures Authenticate(Some(Bearer + token), verify) == Next(verify(token).value)
  {
    BearerRoundTrip(token);
  }

  /** A bare "Bearer " header carries no token and is refused as not logged in. */
  lemma EmptyBearerRefused(verify: Verifier)
    ensures Authenticate(Some(Bearer), verify) == Reject(NotLoggedIn)
  {
    BearerRoundTrip("");
    assert Bearer + "" == Bearer;
  }

  /**
   * A header without the prefix is handed to the verifier unchanged, and only
   * the first "Bearer " is removed from one that has it twice.
   */
  lemma StripOnlyFirst(token: string)
    ensures StripBearer(Bearer + Bearer + token) == Bearer + token
  {
    BearerRoundTrip(Bearer + token);
    assert Bearer + Bearer + token == Bearer + (Bearer + token);
  }
}
