/**
 * The authentication filter of the API gateway: a request without an
 * Authorization header passes through; otherwise the first value must be
 * `Bearer <token>` with a token that verifies, or the gateway answers 401
 * without calling the rest of the chain. JWT parsing and signature checking
 * are a parameter: the map from every token that verifies to its subject.
 */
module Gateway {
  import opened Common

  /** A request as far as the filter sees it: every header name with its values. */
  datatype Request = Request(headers: map<string, seq<string>>)

  /** What the filter does with a request: forward it down the chain, or complete it with a status. */
  datatype Verdict = Forwarded(request: Request) | Unauthorized | ServerError

  const AuthorizationHeader: string := "Authorization"
  const UserIdHeader: string := "X-User-ID"
  const BearerPrefix: string := "Bearer "

  predicate StartsWith(s: string, prefix: string)
  {
    prefix <= s
  }

  /** `authHeader.substring(7)`: the text after the seven characters of the prefix. */
  function TokenOf(header: string): (t: string)
    requires StartsWith(header, BearerPrefix)
    ensures header == BearerPrefix + t
  {
    header[|BearerPrefix|..]
  }

  /** The token is recovered exactly from any header built from it. */
  lemma TokenOfRoundTrip(t: string)
    ensures StartsWith(BearerPrefix + t, BearerPrefix) && TokenOf(BearerPrefix + t) == t
  {
  }

  /**
   * The filter as written. A valid token's subject goes into a new request
   * built by `mutate()`, which is never put back into the exchange, so the
   * request forwarded is the one that arrived. This reading takes the
   * builder to write into a copy of the original headers.
   */
  function Filter(req: Request, verified: map<string, string>): (v: Verdict)
    ensures AuthorizationHeader !in req.headers ==> v == Forwarded(req)
    ensures AuthorizationHeader in req.headers && |req.headers[AuthorizationHeader]| == 0 ==> v == ServerError
    ensures v.Unauthorized? <==>
      AuthorizationHeader in req.headers && |req.headers[AuthorizationHeader]| > 0 &&
      var h := req.headers[AuthorizationHeader][0];
      !StartsWith(h, BearerPrefix) || TokenOf(h) !in verified
    ensures v.Forwarded? ==> v.request == req
  {
    if AuthorizationHeader !in req.headers then Forwarded(req)
    else if |req.headers[AuthorizationHeader]| == 0 then ServerError
    else
      var h := req.headers[AuthorizationHeader][0];
      if !StartsWith(h, BearerPrefix) then Unauthorized
      else if TokenOf(h) !in verified then Unauthorized
      else Forwarded(req)
  }

  /** Only the first Authorization value is read: requests that agree on it get the same decision. */
  lemma FirstValueDecides(r1: Request, r2: Request, verified: map<string, string>)
    requires AuthorizationHeader in r1.headers && AuthorizationHeader in r2.headers
    requires |r1.headers[AuthorizationHeader]| > 0 && |r2.headers[AuthorizationHeader]| > 0
    requires r1.headers[AuthorizationHeader][0] == r2.headers[AuthorizationHeader][0]
    ensures Filter(r1, verified).Unauthorized? == Filter(r2, verified).Unauthorized?
    ensures Filter(r1, verified).Forwarded? == Filter(r2, verified).Forwarded?
  {
  }

  /**
   * As written, a request with a valid token reaches the service without the
   * subject: no X-User-ID is added, given that `mutate()` copies the headers.
   */
  lemma SubjectNeverForwarded()
    ensures var req := Request(map[AuthorizationHeader := [BearerPrefix + "t"]]);
      var v := Filter(req, map["t" := "42"]);
      v.Forwarded? && UserIdHeader !in v.request.headers
  {
    var req := Request(map[AuthorizationHeader := [BearerPrefix + "t"]]);
    assert TokenOf(BearerPrefix + "t") == "t";
    assert UserIdHeader != AuthorizationHeader by {
      assert UserIdHeader[0] != AuthorizationHeader[0];
    }
  }

  /** A header sent by the caller passes the filter untouched, so as written the caller chooses X-User-ID. */
  lemma CallerChosenUserIdPasses(u: string)
    ensures var req := Request(map[UserIdHeader := [u]]);
      Filter(req, map[]) == Forwarded(req)
  {
    var req := Request(map[UserIdHeader := [u]]);
    assert AuthorizationHeader !in req.headers by {
      assert UserIdHeader[0] != AuthorizationHeader[0];
    }
  }

  /**
   * The filter as evidently intended: the same decisions, and the request
   * forwarded for a valid token carries the token's subject as its only
   * X-User-ID value.
   */
  function FilterIntended(req: Request, verified: map<string, string>): (v: Verdict)
    ensures v.Unauthorized? == Filter(req, verified).Unauthorized?
    ensures v.ServerError? == Filter(req, verified).ServerError?
    ensures AuthorizationHeader !in req.headers ==> v == Forwarded(req)
  {
    match Filter(req, verified)
    case Forwarded(_) =>
      if AuthorizationHeader !in req.headers then Forwarded(req)
      else
        var subject := verified[TokenOf(req.headers[AuthorizationHeader][0])];
        Forwarded(Request(req.headers[UserIdHeader := [subject]]))
    case other => other
  }

  /** With the intended filter, a request that passes with a token carries exactly that token's subject. */
  lemma IntendedCarriesSubject(req: Request, verified: map<string, string>)
    requires AuthorizationHeader in req.headers && |req.headers[AuthorizationHeader]| > 0
    requires FilterIntended(req, verified).Forwarded?
    ensures var h := req.headers[AuthorizationHeader][0];
      StartsWith(h, BearerPrefix) && TokenOf(h) in verified &&
      FilterIntended(req, verified).request.headers[UserIdHeader] == [verified[TokenOf(h)]]
  {
  }
}
