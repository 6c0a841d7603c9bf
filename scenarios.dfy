/**
 * The cases the repository's test suite exercises, stated on the model:
 * each lemma fixes a configuration as `toaCORS` resolves it (the `Resolve`
 * methods apply the merge to the test's option object and prove it gives
 * that configuration) and a request as the handler reads it, and states the
 * headers, `Vary`, status and outcome the handler leaves on a response that
 * started with no headers.
 */
module CorsScenarios {
  import opened Wrappers
  import opened Strings
  import opened Http
  import CorsOptions
  import opened CorsHandler

  /** `toaCORS({credentials: true})`. */
  function DefaultsWithCredentials(): CorsOptions.Policy
  {
    CorsOptions.Policy(CorsOptions.DefaultAllowOrigins, CorsOptions.DefaultAllowMethods, CorsOptions.DefaultAllowHeaders, CorsOptions.DefaultExposeHeaders,
           CorsOptions.DefaultMaxAge, true, CorsOptions.DefaultValidatorFor(CorsOptions.DefaultAllowOrigins))
  }

  /** `toaCORS` with every option given except the validator. */
  function SomeOptions(): CorsOptions.Policy
  {
    CorsOptions.Policy(["test.org"], ["GET", "PUT"], ["CORS-Test-Allow-Header"], ["CORS-Test-Expose-Header"],
           10, true, CorsOptions.DefaultValidatorFor(["test.org"]))
  }

  /** The tests' custom validator: it refuses one origin and rewrites every other. */
  function RewritingValidator(): string -> string
  {
    origin => if origin == "not-allow-origin.com" then "" else "test-origin.com"
  }

  /** `toaCORS` with only a custom validator that rewrites every origin but one. */
  function CustomValidator(): CorsOptions.Policy
  {
    CorsOptions.Policy(CorsOptions.DefaultAllowOrigins, CorsOptions.DefaultAllowMethods, CorsOptions.DefaultAllowHeaders, CorsOptions.DefaultExposeHeaders,
           CorsOptions.DefaultMaxAge, CorsOptions.DefaultCredentials, RewritingValidator())
  }

  /** Merging `{credentials: true}` gives the first configuration. */
  method ResolveDefaultsWithCredentials() returns (p: CorsOptions.Policy)
    ensures p == DefaultsWithCredentials()
  {
    var o := new CorsOptions.Options(None, None, None, None, None, Some(true), None);
    p := CorsOptions.ToaCors(o);
  }

  /** Merging the option object with every field but the validator gives the second configuration. */
  method ResolveSomeOptions() returns (p: CorsOptions.Policy)
    ensures p == SomeOptions()
  {
    var o := new CorsOptions.Options(Some(["test.org"]), Some(["GET", "PUT"]), Some(["CORS-Test-Allow-Header"]),
                                     Some(["CORS-Test-Expose-Header"]), Some(10), Some(true), None);
    p := CorsOptions.ToaCors(o);
  }

  /** Merging `{allowOriginsValidator: ...}` gives the third configuration, with the validator used as given. */
  method ResolveCustomValidator() returns (p: CorsOptions.Policy)
    ensures p == CustomValidator()
  {
    var o := new CorsOptions.Options(None, None, None, None, None, None, Some(RewritingValidator()));
    p := CorsOptions.ToaCors(o);
  }

  /** The default method list as the preflight advertises it. */
  lemma DefaultMethodsJoined()
    ensures Join(CorsOptions.DefaultAllowMethods, ", ") == "GET, HEAD, PUT, POST, DELETE, PATCH"
  {
    var m := CorsOptions.DefaultAllowMethods;
    assert m[1..] == ["HEAD", "PUT", "POST", "DELETE", "PATCH"];
    assert m[1..][1..] == ["PUT", "POST", "DELETE", "PATCH"];
    assert m[1..][1..][1..] == ["POST", "DELETE", "PATCH"];
    assert m[1..][1..][1..][1..] == ["DELETE", "PATCH"];
    assert m[1..][1..][1..][1..][1..] == ["PATCH"];
  }

  /** A valid preflight under the default configuration advertises the six default methods. */
  lemma DefaultPreflight(req: Request, r0: ResponseState)
    requires req.verb == "OPTIONS" && RequestOrigin(req) == "test.org" && req.Get(RequestMethodHeader) == "PUT"
    requires r0.headers == map[] && r0.vary == []
    ensures var e := Evaluate(DefaultsWithCredentials(), req, r0);
      && e.outcome == Ended && e.response.status == 204
      && e.response.Header(AllowOriginHeader) == Some("test.org")
      && e.response.Header(AllowMethodsHeader) == Some("GET, HEAD, PUT, POST, DELETE, PATCH")
      && e.response.Header(AllowCredentialsHeader) == Some("true")
      && e.response.VaryHeader() == "Origin" + ", " + RequestMethodHeader + ", " + RequestHeadersHeader
  {
    var p := DefaultsWithCredentials();
    PreflightAnswered(p, req, r0);
    PreflightHeaderSet(p, req, r0);
    PreflightVaryFromEmpty(r0);
    DefaultMethodsJoined();
  }

  /** A request without `Origin` is passed on with only `Vary: Origin` added. */
  lemma MissingOrigin(req: Request, r0: ResponseState)
    requires RequestOrigin(req) == ""
    requires r0.headers == map[] && r0.vary == []
    ensures var e := Evaluate(SomeOptions(), req, r0);
      && e.outcome == Continue
      && e.response.Header(AllowOriginHeader) == None
      && e.response.VaryHeader() == "Origin"
  {
  }

  /** An origin that is not listed is refused with 403 before any CORS header is written. */
  lemma OriginNotListed(req: Request, r0: ResponseState)
    requires RequestOrigin(req) == "not-allowed.org"
    requires r0.headers == map[] && r0.vary == []
    ensures var e := Evaluate(SomeOptions(), req, r0);
      && e.outcome == Rejected(403, NotAllowedMessage("not-allowed.org"))
      && e.response.Header(AllowOriginHeader) == None
      && e.response.VaryHeader() == "Origin"
  {
  }

  /** A listed origin on an actual request: the grant and the exposed headers, nothing of the preflight set. */
  lemma ActualRequestWithOptions(req: Request, r0: ResponseState)
    requires req.verb == "GET" && RequestOrigin(req) == "test.org"
    requires r0.headers == map[] && r0.vary == []
    ensures var e := Evaluate(SomeOptions(), req, r0);
      && e.outcome == Continue
      && e.response.VaryHeader() == "Origin"
      && e.response.Header(AllowOriginHeader) == Some("test.org")
      && e.response.Header(AllowCredentialsHeader) == Some("true")
      && e.response.Header(ExposeHeadersHeader) == Some("CORS-Test-Expose-Header")
      && e.response.Header(MaxAgeHeader) == None
      && e.response.Header(AllowMethodsHeader) == None
      && e.response.Header(AllowHeadersHeader) == None
  {
    ActualRequestGranted(SomeOptions(), req, r0);
  }

  /** A preflight without `Access-Control-Request-Method` is refused and the grant withdrawn. */
  lemma PreflightMissingRequestMethod(req: Request, r0: ResponseState)
    requires req.verb == "OPTIONS" && RequestOrigin(req) == "test.org" && req.Get(RequestMethodHeader) == ""
    requires r0.headers == map[] && r0.vary == []
    ensures var e := Evaluate(SomeOptions(), req, r0);
      && e.outcome == Rejected(403, InvalidPreflightMessage)
      && e.response.Header(AllowOriginHeader) == None
      && e.response.Header(AllowCredentialsHeader) == None
      && e.response.VaryHeader() == "Origin" + ", " + RequestMethodHeader + ", " + RequestHeadersHeader
  {
    PreflightWithoutRequestMethod(SomeOptions(), req, r0);
    PreflightVaryFromEmpty(r0);
  }

  /** The method list and the max age of `SomeOptions` as the preflight writes them. */
  lemma SomeOptionsRendered()
    ensures Join(SomeOptions().allowMethods, ", ") == "GET, PUT"
    ensures Decimal(SomeOptions().maxAge) == "10"
  {
    assert SomeOptions().allowMethods[1..] == ["PUT"];
  }

  /** A valid preflight with every option given carries the configured header set. */
  lemma PreflightWithOptions(req: Request, r0: ResponseState)
    requires req.verb == "OPTIONS" && RequestOrigin(req) == "test.org" && req.Get(RequestMethodHeader) == "PUT"
    requires r0.headers == map[] && r0.vary == []
    ensures var e := Evaluate(SomeOptions(), req, r0);
      && e.outcome == Ended && e.response.status == 204
      && e.response.VaryHeader() == "Origin" + ", " + RequestMethodHeader + ", " + RequestHeadersHeader
      && e.response.Header(AllowOriginHeader) == Some("test.org")
      && e.response.Header(MaxAgeHeader) == Some("10")
      && e.response.Header(AllowMethodsHeader) == Some("GET, PUT")
      && e.response.Header(AllowCredentialsHeader) == Some("true")
      && e.response.Header(AllowHeadersHeader) == Some("CORS-Test-Allow-Header")
      && e.response.Header(ExposeHeadersHeader) == None
  {
    var p := SomeOptions();
    PreflightAnswered(p, req, r0);
    PreflightHeaderSet(p, req, r0);
    PreflightVaryFromEmpty(r0);
    SomeOptionsRendered();
  }

  /** With no allowed headers configured, the preflight echoes the requested headers. */
  lemma PreflightEchoesRequestedHeaders(req: Request, r0: ResponseState)
    requires req.verb == "OPTIONS" && RequestOrigin(req) == "test.org" && req.Get(RequestMethodHeader) == "PUT"
    requires req.Get(RequestHeadersHeader) == "X-Foo"
    requires r0.headers == map[] && r0.vary == []
    ensures Evaluate(DefaultsWithCredentials(), req, r0).response.Header(AllowHeadersHeader) == Some("X-Foo")
  {
    PreflightHeaderSet(DefaultsWithCredentials(), req, r0);
  }

  /** A custom validator decides the allow-origin value, which need not be the request's origin. */
  lemma CustomValidatorRewritesOrigin(req: Request, r0: ResponseState)
    requires req.verb == "GET" && RequestOrigin(req) == "test.com"
    requires r0.headers == map[] && r0.vary == []
    ensures var e := Evaluate(CustomValidator(), req, r0);
      && e.outcome == Continue
      && e.response.VaryHeader() == "Origin"
      && e.response.Header(AllowOriginHeader) == Some("test-origin.com")
  {
    ActualRequestGranted(CustomValidator(), req, r0);
  }

  /** A custom validator that answers "" refuses the origin. */
  lemma CustomValidatorRefusesOrigin(req: Request, r0: ResponseState)
    requires RequestOrigin(req) == "not-allow-origin.com"
    requires r0.headers == map[] && r0.vary == []
    ensures var e := Evaluate(CustomValidator(), req, r0);
      && e.outcome == Rejected(403, NotAllowedMessage("not-allow-origin.com"))
      && e.response.VaryHeader() == "Origin"
      && e.response.Header(AllowOriginHeader) == None
  {
  }
}
