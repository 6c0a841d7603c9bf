/**
 * Configuration of the CORS middleware: the default option table, the
 * merge of caller-supplied options with it (done in place on the caller's
 * object), the default origin validator built from `allowOrigins`, and the
 * resolved policy the request handler reads.
 */
module CorsOptions {
  import opened Wrappers

  // The default option table.
  const DefaultAllowOrigins: seq<string> := ["*"]
  const DefaultAllowMethods: seq<string> := ["GET", "HEAD", "PUT", "POST", "DELETE", "PATCH"]
  const DefaultAllowHeaders: seq<string> := []
  const DefaultExposeHeaders: seq<string> := []
  const DefaultMaxAge: int := 0
  const DefaultCredentials: bool := false
  // The default for `allowOriginsValidator` is null: `None`.

  /** The keys of the default option table. */
  datatype Key = AllowOrigins | AllowMethods | AllowHeaders | ExposeHeaders | MaxAge | Credentials | AllowOriginsValidator

  /** The keys in the order the table lists them, which is the order the merge visits them. */
  const DefaultKeys: seq<Key> := [AllowOrigins, AllowMethods, AllowHeaders, ExposeHeaders, MaxAge, Credentials, AllowOriginsValidator]

  /**
   * The default validator: scan `allowOrigins` in order and answer `origin`
   * at the first entry that is `origin` itself or `"*"`; "" when none is.
   */
  function DefaultValidator(allowOrigins: seq<string>, origin: string): (r: string)
    ensures r == if origin in allowOrigins || "*" in allowOrigins then origin else ""
  {
    if |allowOrigins| == 0 then ""
    else if allowOrigins[0] == origin || allowOrigins[0] == "*" then origin
    else DefaultValidator(allowOrigins[1..], origin)
  }

  /** The default validator over a fixed list of origins, as a function of the origin. */
  function DefaultValidatorFor(allowOrigins: seq<string>): (f: string -> string)
    ensures forall origin :: f(origin) == if origin in allowOrigins || "*" in allowOrigins then origin else ""
  {
    origin => DefaultValidator(allowOrigins, origin)
  }

  /** With the default list `["*"]`, every origin is accepted and echoed unchanged. */
  lemma DefaultOriginsAcceptEveryOrigin(origin: string)
    ensures DefaultValidatorFor(DefaultAllowOrigins)(origin) == origin
  {
  }

  /** The resolved configuration that the request handler reads. */
  datatype Policy = Policy(
    allowOrigins: seq<string>,
    allowMethods: seq<string>,
    allowHeaders: seq<string>,
    exposeHeaders: seq<string>,
    maxAge: int,
    credentials: bool,
    validator: string -> string)

  /** The caller's option object; `None` is a field left `null` or `undefined`. */
  class Options {
    var allowOrigins: Option<seq<string>>
    var allowMethods: Option<seq<string>>
    var allowHeaders: Option<seq<string>>
    var exposeHeaders: Option<seq<string>>
    var maxAge: Option<int>
    var credentials: Option<bool>
    var allowOriginsValidator: Option<string -> string>

    constructor (allowOrigins: Option<seq<string>>, allowMethods: Option<seq<string>>,
                 allowHeaders: Option<seq<string>>, exposeHeaders: Option<seq<string>>,
                 maxAge: Option<int>, credentials: Option<bool>,
                 allowOriginsValidator: Option<string -> string>)
      ensures this.allowOrigins == allowOrigins && this.allowMethods == allowMethods
      ensures this.allowHeaders == allowHeaders && this.exposeHeaders == exposeHeaders
      ensures this.maxAge == maxAge && this.credentials == credentials
      ensures this.allowOriginsValidator == allowOriginsValidator
    {
      this.allowOrigins, this.allowMethods := allowOrigins, allowMethods;
      this.allowHeaders, this.exposeHeaders := allowHeaders, exposeHeaders;
      this.maxAge, this.credentials := maxAge, credentials;
      this.allowOriginsValidator := allowOriginsValidator;
    }

    /**
     * `if (opts[key] == null) opts[key] = defaultOptions[key]` for one key.
     * The default validator entry is null, so that key leaves the field as it is.
     */
    method FillDefault(k: Key)
      modifies this
      ensures allowOrigins == if k == AllowOrigins then Some(old(allowOrigins).GetOr(DefaultAllowOrigins)) else old(allowOrigins)
      ensures allowMethods == if k == AllowMethods then Some(old(allowMethods).GetOr(DefaultAllowMethods)) else old(allowMethods)
      ensures allowHeaders == if k == AllowHeaders then Some(old(allowHeaders).GetOr(DefaultAllowHeaders)) else old(allowHeaders)
      ensures exposeHeaders == if k == ExposeHeaders then Some(old(exposeHeaders).GetOr(DefaultExposeHeaders)) else old(exposeHeaders)
      ensures maxAge == if k == MaxAge then Some(old(maxAge).GetOr(DefaultMaxAge)) else old(maxAge)
      ensures credentials == if k == Credentials then Some(old(credentials).GetOr(DefaultCredentials)) else old(credentials)
      ensures allowOriginsValidator == old(allowOriginsValidator)
    {
      match k
      case AllowOrigins => if allowOrigins.None? { allowOrigins := Some(DefaultAllowOrigins); }
      case AllowMethods => if allowMethods.None? { allowMethods := Some(DefaultAllowMethods); }
      case AllowHeaders => if allowHeaders.None? { allowHeaders := Some(DefaultAllowHeaders); }
      case ExposeHeaders => if exposeHeaders.None? { exposeHeaders := Some(DefaultExposeHeaders); }
      case MaxAge => if maxAge.None? { maxAge := Some(DefaultMaxAge); }
      case Credentials => if credentials.None? { credentials := Some(DefaultCredentials); }
      case AllowOriginsValidator =>
    }

    /**
     * The merge loop over the keys of the default table: every field left
     * null takes its default; every supplied value, `false`, `0` and `[]`
     * included, is kept.
     */
    method FillDefaults()
      modifies this
      ensures allowOrigins == Some(old(allowOrigins).GetOr(DefaultAllowOrigins))
      ensures allowMethods == Some(old(allowMethods).GetOr(DefaultAllowMethods))
      ensures allowHeaders == Some(old(allowHeaders).GetOr(DefaultAllowHeaders))
      ensures exposeHeaders == Some(old(exposeHeaders).GetOr(DefaultExposeHeaders))
      ensures maxAge == Some(old(maxAge).GetOr(DefaultMaxAge))
      ensures credentials == Some(old(credentials).GetOr(DefaultCredentials))
      ensures allowOriginsValidator == old(allowOriginsValidator)
    {
      for i := 0 to |DefaultKeys|
        invariant allowOrigins == if AllowOrigins in DefaultKeys[..i] then Some(old(allowOrigins).GetOr(DefaultAllowOrigins)) else old(allowOrigins)
        invariant allowMethods == if AllowMethods in DefaultKeys[..i] then Some(old(allowMethods).GetOr(DefaultAllowMethods)) else old(allowMethods)
        invariant allowHeaders == if AllowHeaders in DefaultKeys[..i] then Some(old(allowHeaders).GetOr(DefaultAllowHeaders)) else old(allowHeaders)
        invariant exposeHeaders == if ExposeHeaders in DefaultKeys[..i] then Some(old(exposeHeaders).GetOr(DefaultExposeHeaders)) else old(exposeHeaders)
        invariant maxAge == if MaxAge in DefaultKeys[..i] then Some(old(maxAge).GetOr(DefaultMaxAge)) else old(maxAge)
        invariant credentials == if Credentials in DefaultKeys[..i] then Some(old(credentials).GetOr(DefaultCredentials)) else old(credentials)
        invariant allowOriginsValidator == old(allowOriginsValidator)
      {
        assert DefaultKeys[..i + 1] == DefaultKeys[..i] + [DefaultKeys[i]];
        FillDefault(DefaultKeys[i]);
      }
      assert DefaultKeys[..|DefaultKeys|] == DefaultKeys;
    }
  }

  /**
   * `toaCORS(opts)`: treat a missing option object as `{}`, fill in the
   * defaults in place, and build the default validator over the merged
   * `allowOrigins` only when no validator was supplied. The result is the
   * configuration the returned handler reads.
   */
  method ToaCors(opts: Options?) returns (p: Policy)
    modifies opts
    ensures p.allowOrigins == (if opts == null then None else old(opts.allowOrigins)).GetOr(DefaultAllowOrigins)
    ensures p.allowMethods == (if opts == null then None else old(opts.allowMethods)).GetOr(DefaultAllowMethods)
    ensures p.allowHeaders == (if opts == null then None else old(opts.allowHeaders)).GetOr(DefaultAllowHeaders)
    ensures p.exposeHeaders == (if opts == null then None else old(opts.exposeHeaders)).GetOr(DefaultExposeHeaders)
    ensures p.maxAge == (if opts == null then None else old(opts.maxAge)).GetOr(DefaultMaxAge)
    ensures p.credentials == (if opts == null then None else old(opts.credentials)).GetOr(DefaultCredentials)
    ensures opts != null && old(opts.allowOriginsValidator).Some? ==> p.validator == old(opts.allowOriginsValidator).value
    ensures opts == null || old(opts.allowOriginsValidator).None? ==> p.validator == DefaultValidatorFor(p.allowOrigins)
    // The caller's object is updated in place to the merged option set.
    ensures opts != null ==> && opts.allowOrigins == Some(p.allowOrigins) && opts.allowMethods == Some(p.allowMethods)
                             && opts.allowHeaders == Some(p.allowHeaders) && opts.exposeHeaders == Some(p.exposeHeaders)
                             && opts.maxAge == Some(p.maxAge) && opts.credentials == Some(p.credentials)
                             && opts.allowOriginsValidator == Some(p.validator)
  {
    var o := opts;
    if o == null {
      o := new Options(None, None, None, None, None, None, None);
    }
    o.FillDefaults();
    if o.allowOriginsValidator.None? {
      o.allowOriginsValidator := Some(DefaultValidatorFor(o.allowOrigins.value));
    }
    p := Policy(o.allowOrigins.value, o.allowMethods.value, o.allowHeaders.value, o.exposeHeaders.value,
                o.maxAge.value, o.credentials.value, o.allowOriginsValidator.value);
  }
}
