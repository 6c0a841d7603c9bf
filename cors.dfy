/**
 * The per-request CORS handler: add `Origin` to `Vary`, pass non-CORS
 * requests through, validate the origin, grant it, and then either answer
 * a preflight (`OPTIONS`) request in full or advertise the exposed headers
 * on an actual request.
 *
 * `Evaluate` states the whole effect of one call on a response state;
 * `Cors` performs the same steps one header write at a time on a mutable
 * `Response` and is proved to end in the state `Evaluate` describes.
 */
module CorsHandler {
  import opened Wrappers
  import opened Strings
  import opened Http
  import opened CorsOptions

  const AllowOriginHeader := "Access-Control-Allow-Origin"
  const AllowCredentialsHeader := "Access-Control-Allow-Credentials"
  const AllowMethodsHeader := "Access-Control-Allow-Methods"
  const AllowHeadersHeader := "Access-Control-Allow-Headers"
  const MaxAgeHeader := "Access-Control-Max-Age"
  const ExposeHeadersHeader := "Access-Control-Expose-Headers"
  const RequestMethodHeader := "Access-Control-Request-Method"
  const RequestHeadersHeader := "Access-Control-Request-Headers"

  /** Every response header the handler may set or remove. */
  const CorsHeaders: set<string> := {AllowOriginHeader, AllowCredentialsHeader, AllowMethodsHeader, AllowHeadersHeader, MaxAgeHeader, ExposeHeadersHeader}

  /** The CORS response header names are pairwise different. */
  lemma CorsHeadersDistinct()
    ensures AllowOriginHeader != AllowCredentialsHeader && AllowOriginHeader != AllowMethodsHeader && AllowOriginHeader != AllowHeadersHeader
    ensures AllowOriginHeader != MaxAgeHeader && AllowOriginHeader != ExposeHeadersHeader
    ensures AllowCredentialsHeader != AllowMethodsHeader && AllowCredentialsHeader != AllowHeadersHeader
    ensures AllowCredentialsHeader != MaxAgeHeader && AllowCredentialsHeader != ExposeHeadersHeader
    ensures AllowMethodsHeader != AllowHeadersHeader && AllowMethodsHeader != MaxAgeHeader && AllowMethodsHeader != ExposeHeadersHeader
    ensures AllowHeadersHeader != MaxAgeHeader && AllowHeadersHeader != ExposeHeadersHeader && MaxAgeHeader != ExposeHeadersHeader
  {
    assert AllowMethodsHeader[21] != AllowHeadersHeader[21];
  }

  /** The separator of every list-valued header. */
  const ListSeparator := ", "

  /** The refusal message; the rejected origin can be read back from it exactly. */
  function NotAllowedMessage(origin: string): (m: string)
    ensures |m| == |origin| + 24 && m[8..|m| - 16] == origin
    ensures m[..8] == "Origin \"" && m[|m| - 16..] == "\" is not allowed"
  {
    "Origin \"" + origin + "\" is not allowed"
  }

  const InvalidPreflightMessage := "invalid preflighted request, missing Access-Control-Request-Method header"

  /** The outcome of one call together with the response state it leaves. */
  datatype Evaluation = Evaluation(outcome: Outcome, response: ResponseState)

  /** The request's `Origin`, "" when absent. */
  function RequestOrigin(req: Request): string
  {
    req.Get("origin")
  }

  /** What the validator answers for the request's origin. */
  function AllowedOrigin(p: Policy, req: Request): string
  {
    p.validator(RequestOrigin(req))
  }

  /** The request is a CORS request whose origin the validator accepted. */
  predicate Granted(p: Policy, req: Request)
  {
    RequestOrigin(req) != "" && AllowedOrigin(p, req) != ""
  }

  /** The value a preflight answer gives `Access-Control-Allow-Headers` (not set when ""). */
  function PreflightAllowHeaders(p: Policy, req: Request): (v: string)
    ensures |p.allowHeaders| > 0 ==> p.allowHeaders[0] <= v
    ensures |p.allowHeaders| == 0 ==> v == req.Get(RequestHeadersHeader)
    ensures v == "" <==> if |p.allowHeaders| > 0 then p.allowHeaders == [""] else req.Get(RequestHeadersHeader) == ""
  {
    JoinIsEmpty(p.allowHeaders, ListSeparator);
    if |p.allowHeaders| > 0 then
      JoinStartsWithFirst(p.allowHeaders, ListSeparator);
      Join(p.allowHeaders, ListSeparator)
    else req.Get(RequestHeadersHeader)
  }

  /** `Vary` after a preflight request: `Origin` and the two preflight request headers appended. */
  function PreflightVary(r0: ResponseState): seq<string>
  {
    r0.AddVary("Origin").AddVary(RequestMethodHeader).AddVary(RequestHeadersHeader).vary
  }

  /** The credentials header after a grant: "true" when credentials are on, otherwise left as it was. */
  function CredentialsAfterGrant(p: Policy, r0: ResponseState): Option<string>
  {
    if p.credentials then Some("true") else r0.Header(AllowCredentialsHeader)
  }

  /** An actual (non-`OPTIONS`) request with an accepted origin. */
  ghost predicate IsActualGrant(p: Policy, req: Request, r0: ResponseState, e: Evaluation)
  {
    && e.outcome == Continue
    && e.response.vary == r0.AddVary("Origin").vary
    && e.response.status == r0.status
    && e.response.Header(AllowOriginHeader) == Some(AllowedOrigin(p, req))
    && e.response.Header(AllowCredentialsHeader) == CredentialsAfterGrant(p, r0)
    && e.response.Header(ExposeHeadersHeader) == (if |p.exposeHeaders| > 0 then Some(Join(p.exposeHeaders, ListSeparator)) else r0.Header(ExposeHeadersHeader))
    && e.response.Header(AllowMethodsHeader) == r0.Header(AllowMethodsHeader)
    && e.response.Header(AllowHeadersHeader) == r0.Header(AllowHeadersHeader)
    && e.response.Header(MaxAgeHeader) == r0.Header(MaxAgeHeader)
  }

  /** A preflight without `Access-Control-Request-Method`: the grant is rolled back and the request fails. */
  ghost predicate IsInvalidPreflight(r0: ResponseState, e: Evaluation)
  {
    && e.outcome == Rejected(403, InvalidPreflightMessage)
    && e.response.vary == PreflightVary(r0)
    && e.response.headers == r0.headers - {AllowOriginHeader, AllowCredentialsHeader}
    && e.response.status == r0.status
  }

  /** A valid preflight ends the response with 204, keeping the grant and never exposing headers. */
  ghost predicate IsPreflightEnd(p: Policy, req: Request, r0: ResponseState, e: Evaluation)
  {
    && e.outcome == Ended
    && e.response.status == 204
    && e.response.vary == PreflightVary(r0)
    && e.response.Header(AllowOriginHeader) == Some(AllowedOrigin(p, req))
    && e.response.Header(AllowCredentialsHeader) == CredentialsAfterGrant(p, r0)
    && e.response.Header(ExposeHeadersHeader) == r0.Header(ExposeHeadersHeader)
  }

  /** The preflight header set: allowed methods, allowed headers, max age, each only when non-empty. */
  ghost predicate HasPreflightHeaders(p: Policy, req: Request, r0: ResponseState, e: Evaluation)
  {
    && e.response.Header(AllowMethodsHeader) == (if |p.allowMethods| > 0 then Some(Join(p.allowMethods, ListSeparator)) else r0.Header(AllowMethodsHeader))
    && e.response.Header(AllowHeadersHeader) == (if PreflightAllowHeaders(p, req) != "" then Some(PreflightAllowHeaders(p, req)) else r0.Header(AllowHeadersHeader))
    && e.response.Header(MaxAgeHeader) == (if p.maxAge > 0 then Some(Decimal(p.maxAge)) else r0.Header(MaxAgeHeader))
  }

  /** Steps 3 and 4 of a granted request: the credentials and allow-origin headers. */
  function Grant(p: Policy, allowOrigin: string, r: ResponseState): (g: ResponseState)
    ensures g.Header(AllowOriginHeader) == Some(allowOrigin)
    ensures g.Header(AllowCredentialsHeader) == CredentialsAfterGrant(p, r)
    ensures forall k :: k != AllowOriginHeader && k != AllowCredentialsHeader ==> g.Header(k) == r.Header(k)
    ensures g.vary == r.vary && g.status == r.status
  {
    var withCredentials := if p.credentials then r.SetHeader(AllowCredentialsHeader, "true") else r;
    withCredentials.SetHeader(AllowOriginHeader, allowOrigin)
  }

  /** The header set of a valid preflight answer, written after the grant; then status 204. */
  function AnswerPreflight(p: Policy, req: Request, r: ResponseState): (a: ResponseState)
    ensures a.Header(AllowMethodsHeader) == (if |p.allowMethods| > 0 then Some(Join(p.allowMethods, ListSeparator)) else r.Header(AllowMethodsHeader))
    ensures a.Header(AllowHeadersHeader) == (if PreflightAllowHeaders(p, req) != "" then Some(PreflightAllowHeaders(p, req)) else r.Header(AllowHeadersHeader))
    ensures a.Header(MaxAgeHeader) == (if p.maxAge > 0 then Some(Decimal(p.maxAge)) else r.Header(MaxAgeHeader))
    ensures forall k :: k != AllowMethodsHeader && k != AllowHeadersHeader && k != MaxAgeHeader ==> a.Header(k) == r.Header(k)
    ensures a.vary == r.vary && a.status == 204
  {
    var withMethods := if |p.allowMethods| > 0 then r.SetHeader(AllowMethodsHeader, Join(p.allowMethods, ListSeparator)) else r;
    var allowHeaders := PreflightAllowHeaders(p, req);
    var withHeaders := if allowHeaders != "" then withMethods.SetHeader(AllowHeadersHeader, allowHeaders) else withMethods;
    var withMaxAge := if p.maxAge > 0 then withHeaders.SetHeader(MaxAgeHeader, Decimal(p.maxAge)) else withHeaders;
    withMaxAge.(status := 204)
  }

  /** Step 6: the expose-headers header of an actual request. */
  function AnswerActual(p: Policy, r: ResponseState): (a: ResponseState)
    ensures a.Header(ExposeHeadersHeader) == (if |p.exposeHeaders| > 0 then Some(Join(p.exposeHeaders, ListSeparator)) else r.Header(ExposeHeadersHeader))
    ensures forall k :: k != ExposeHeadersHeader ==> a.Header(k) == r.Header(k)
    ensures a.vary == r.vary && a.status == r.status
  {
    if |p.exposeHeaders| > 0 then r.SetHeader(ExposeHeadersHeader, Join(p.exposeHeaders, ListSeparator)) else r
  }

  /** The effect of one call of the handler on the response state `r0`. */
  function Evaluate(p: Policy, req: Request, r0: ResponseState): (e: Evaluation)
    // `Origin` is added to `Vary` first, whatever happens afterwards.
    ensures "Origin" in e.response.vary && r0.AddVary("Origin").vary <= e.response.vary
    // Not a CORS request: only `Vary` changes.
    ensures RequestOrigin(req) == "" ==> e == Evaluation(Continue, r0.AddVary("Origin"))
    // Origin rejected: 403, and no CORS header has been set.
    ensures RequestOrigin(req) != "" && AllowedOrigin(p, req) == "" ==>
              e == Evaluation(Rejected(403, NotAllowedMessage(RequestOrigin(req))), r0.AddVary("Origin"))
  {
    var r1 := r0.AddVary("Origin");
    var origin := RequestOrigin(req);
    if origin == "" then Evaluation(Continue, r1)
    else
      var allowOrigin := p.validator(origin);
      if allowOrigin == "" then Evaluation(Rejected(403, NotAllowedMessage(origin)), r1)
      else
        var granted := Grant(p, allowOrigin, r1);
        if req.verb == "OPTIONS" then
          var r2 := granted.AddVary(RequestMethodHeader).AddVary(RequestHeadersHeader);
          if req.Get(RequestMethodHeader) == "" then
            Evaluation(Rejected(403, InvalidPreflightMessage), r2.RemoveHeader(AllowOriginHeader).RemoveHeader(AllowCredentialsHeader))
          else
            Evaluation(Ended, AnswerPreflight(p, req, r2))
        else
          Evaluation(Continue, AnswerActual(p, granted))
  }

  /** Whatever the outcome, headers outside the CORS set are never touched. */
  lemma OnlyCorsHeadersChange(p: Policy, req: Request, r0: ResponseState, k: string)
    requires k !in CorsHeaders
    ensures Evaluate(p, req, r0).response.Header(k) == r0.Header(k)
  {
    var r1 := r0.AddVary("Origin");
    if Granted(p, req) {
      var granted := Grant(p, AllowedOrigin(p, req), r1);
      var r2 := granted.AddVary(RequestMethodHeader).AddVary(RequestHeadersHeader);
      assert granted.Header(k) == r0.Header(k);
      if req.verb == "OPTIONS" && req.Get(RequestMethodHeader) != "" {
        assert Evaluate(p, req, r0).response == AnswerPreflight(p, req, r2);
      }
    }
  }

  /** An actual request with an accepted origin: grant, expose-headers, continue. */
  lemma ActualRequestGranted(p: Policy, req: Request, r0: ResponseState)
    requires Granted(p, req) && req.verb != "OPTIONS"
    ensures IsActualGrant(p, req, r0, Evaluate(p, req, r0))
  {
    CorsHeadersDistinct();
  }

  /** A preflight without `Access-Control-Request-Method`: the grant is rolled back, 403. */
  lemma PreflightWithoutRequestMethod(p: Policy, req: Request, r0: ResponseState)
    requires Granted(p, req) && req.verb == "OPTIONS" && req.Get(RequestMethodHeader) == ""
    ensures IsInvalidPreflight(r0, Evaluate(p, req, r0))
  {
  }

  /** A valid preflight: status 204 and the response ended, with the grant kept. */
  lemma PreflightAnswered(p: Policy, req: Request, r0: ResponseState)
    requires Granted(p, req) && req.verb == "OPTIONS" && req.Get(RequestMethodHeader) != ""
    ensures IsPreflightEnd(p, req, r0, Evaluate(p, req, r0))
  {
    var granted := Grant(p, AllowedOrigin(p, req), r0.AddVary("Origin"));
    var r2 := granted.AddVary(RequestMethodHeader).AddVary(RequestHeadersHeader);
    assert Evaluate(p, req, r0) == Evaluation(Ended, AnswerPreflight(p, req, r2));
    CorsHeadersDistinct();
  }

  /** A valid preflight carries the configured methods, the allowed headers and the max age. */
  lemma PreflightHeaderSet(p: Policy, req: Request, r0: ResponseState)
    requires Granted(p, req) && req.verb == "OPTIONS" && req.Get(RequestMethodHeader) != ""
    ensures HasPreflightHeaders(p, req, r0, Evaluate(p, req, r0))
  {
    var granted := Grant(p, AllowedOrigin(p, req), r0.AddVary("Origin"));
    var r2 := granted.AddVary(RequestMethodHeader).AddVary(RequestHeadersHeader);
    assert Evaluate(p, req, r0) == Evaluation(Ended, AnswerPreflight(p, req, r2));
    CorsHeadersDistinct();
  }

  /**
   * On a preflight, `Vary` keeps what it held and gains, in this order,
   * whichever of `Origin` and the two preflight request headers it lacked.
   */
  lemma PreflightVaryAppendsUnlisted(r0: ResponseState)
    ensures PreflightVary(r0) == r0.vary + Unlisted(["Origin", RequestMethodHeader, RequestHeadersHeader], r0.vary)
  {
    assert RequestMethodHeader != "Origin" && RequestHeadersHeader != "Origin";
    assert RequestMethodHeader[23] != RequestHeadersHeader[23];
    AddVaryThree(r0, "Origin", RequestMethodHeader, RequestHeadersHeader);
  }

  /** On a preflight, `Vary` lists exactly the three request headers when it started empty. */
  lemma PreflightVaryFromEmpty(r0: ResponseState)
    requires r0.vary == []
    ensures PreflightVary(r0) == ["Origin", RequestMethodHeader, RequestHeadersHeader]
    ensures Join(PreflightVary(r0), ListSeparator) == "Origin" + ", " + RequestMethodHeader + ", " + RequestHeadersHeader
  {
    var vary := ["Origin", RequestMethodHeader, RequestHeadersHeader];
    assert vary[1..] == [RequestMethodHeader, RequestHeadersHeader] && vary[1..][1..] == [RequestHeadersHeader];
    assert Join(vary[1..], ListSeparator) == RequestMethodHeader + ListSeparator + RequestHeadersHeader;
  }

  /**
   * With the default validator over a list that holds `"*"`, every request
   * that carries an origin is granted, and the origin is echoed unchanged.
   */
  lemma WildcardGrantsEveryOrigin(p: Policy, req: Request, r0: ResponseState)
    requires "*" in p.allowOrigins && p.validator == DefaultValidatorFor(p.allowOrigins)
    requires RequestOrigin(req) != "" && req.verb != "OPTIONS"
    ensures Evaluate(p, req, r0).outcome == Continue
    ensures Evaluate(p, req, r0).response.Header(AllowOriginHeader) == Some(RequestOrigin(req))
  {
    assert AllowedOrigin(p, req) == RequestOrigin(req);
    ActualRequestGranted(p, req, r0);
  }

  /**
   * On a response that had no credentials header, a granted request that is
   * not rolled back carries `Access-Control-Allow-Credentials: true` exactly
   * when credentials are configured; no other value is ever written.
   */
  lemma CredentialsHeaderExactlyWhenConfigured(p: Policy, req: Request, r0: ResponseState)
    requires Granted(p, req) && !(req.verb == "OPTIONS" && req.Get(RequestMethodHeader) == "")
    requires r0.Header(AllowCredentialsHeader) == None
    ensures Evaluate(p, req, r0).response.Header(AllowCredentialsHeader).Some? <==> p.credentials
    ensures p.credentials ==> Evaluate(p, req, r0).response.Header(AllowCredentialsHeader) == Some("true")
  {
    if req.verb == "OPTIONS" {
      PreflightAnswered(p, req, r0);
    } else {
      ActualRequestGranted(p, req, r0);
    }
  }

  /**
   * On a response that had none of them, a valid preflight carries
   * Allow-Methods exactly when methods are configured, Max-Age exactly when
   * it is positive, and Allow-Headers exactly when the chosen value is not
   * empty: the configured list unless it is empty or `[""]`, otherwise the
   * requested headers.
   */
  lemma PreflightHeadersExactlyWhen(p: Policy, req: Request, r0: ResponseState)
    requires Granted(p, req) && req.verb == "OPTIONS" && req.Get(RequestMethodHeader) != ""
    requires r0.Header(AllowMethodsHeader) == None && r0.Header(AllowHeadersHeader) == None && r0.Header(MaxAgeHeader) == None
    ensures Evaluate(p, req, r0).response.Header(AllowMethodsHeader).Some? <==> |p.allowMethods| > 0
    ensures Evaluate(p, req, r0).response.Header(MaxAgeHeader).Some? <==> p.maxAge > 0
    ensures Evaluate(p, req, r0).response.Header(AllowHeadersHeader).Some? <==>
              if |p.allowHeaders| > 0 then p.allowHeaders != [""] else req.Get(RequestHeadersHeader) != ""
  {
    PreflightHeaderSet(p, req, r0);
    JoinIsEmpty(p.allowHeaders, ListSeparator);
  }

  /**
   * On a response that had no expose-headers header, the handler writes one
   * exactly for a granted actual (non-`OPTIONS`) request with a non-empty
   * expose list; a preflight never carries it.
   */
  lemma ExposeHeadersOnlyOnActualRequests(p: Policy, req: Request, r0: ResponseState)
    requires r0.Header(ExposeHeadersHeader) == None
    ensures Evaluate(p, req, r0).response.Header(ExposeHeadersHeader).Some? <==>
              Granted(p, req) && req.verb != "OPTIONS" && |p.exposeHeaders| > 0
  {
    if Granted(p, req) {
      if req.verb != "OPTIONS" {
        ActualRequestGranted(p, req, r0);
      } else if req.Get(RequestMethodHeader) == "" {
        PreflightWithoutRequestMethod(p, req, r0);
        CorsHeadersDistinct();
        assert ExposeHeadersHeader !in r0.headers - {AllowOriginHeader, AllowCredentialsHeader};
      } else {
        PreflightAnswered(p, req, r0);
      }
    }
  }

  /**
   * The handler returned by `toaCORS`, run on one request: the header
   * writes of `Evaluate`, performed in order on `res`.
   */
  method Cors(p: Policy, req: Request, res: Response) returns (out: Outcome)
    modifies res
    ensures Evaluation(out, res.State()) == Evaluate(p, req, old(res.State()))
  {
    res.Vary("Origin");
    var origin := req.Get("origin");
    if origin == "" {
      return Continue;
    }
    var allowOrigin := p.validator(origin);
    if allowOrigin == "" {
      return Rejected(403, NotAllowedMessage(origin));
    }
    if p.credentials {
      res.Set(AllowCredentialsHeader, "true");
    }
    res.Set(AllowOriginHeader, allowOrigin);

    if req.verb == "OPTIONS" {
      res.Vary(RequestMethodHeader);
      res.Vary(RequestHeadersHeader);
      var requestMethod := req.Get(RequestMethodHeader);
      if requestMethod == "" {
        res.Remove(AllowOriginHeader);
        res.Remove(AllowCredentialsHeader);
        return Rejected(403, InvalidPreflightMessage);
      }
      if |p.allowMethods| > 0 {
        res.Set(AllowMethodsHeader, Join(p.allowMethods, ListSeparator));
      }
      var allowHeaders := "";
      if |p.allowHeaders| > 0 {
        allowHeaders := Join(p.allowHeaders, ListSeparator);
      } else {
        allowHeaders := req.Get(RequestHeadersHeader);
      }
      if allowHeaders != "" {
        res.Set(AllowHeadersHeader, allowHeaders);
      }
      if p.maxAge > 0 {
        res.Set(MaxAgeHeader, Decimal(p.maxAge));
      }
      res.SetStatus(204);
      return Ended;
    }

    if |p.exposeHeaders| > 0 {
      res.Set(ExposeHeadersHeader, Join(p.exposeHeaders, ListSeparator));
    }
    out := Continue;
  }
}
