/**
 * `access_control` (app/auth/decoractor.py): the gate in front of an
 * endpoint. A non-public endpoint demands a bearer token whose payload the
 * token validator accepts, and binds the caller fields of the request
 * context to that payload; a public one only marks the context public. An
 * admin endpoint then refuses every caller whose role is not admin.
 *
 * The token validator is a parameter: a function from the token to the
 * payload, `None` standing for a validator that raised or returned
 * nothing. The wrapped endpoint itself is not modelled; the gate's verdict
 * says whether it runs.
 */
module Access {
  import opened Basics
  import opened Values
  import opened Errors
  import Text
  import opened Schemas

  /** The separator the token follows in the `authorization` header. */
  const Bearer := "Bearer "

  /** The token validator: the payload of a token, or `None` when it raises or returns nothing. */
  type Validator = string -> Option<Document>

  /**
   * `headers.get("authorization").split("Bearer ")[1]`: `None` when the
   * header is missing (the split of `None` raises) or has no separator (the
   * index raises).
   */
  function BearerToken(header: Option<string>): Option<string>
  {
    match header
    case None => None
    case Some(h) =>
      var parts := Text.Split(h, Bearer);
      if |parts| < 2 then None else Some(parts[1])
  }

  /** The header's value, when the request has one. */
  function AuthorizationHeader(headers: map<string, string>): Option<string>
  {
    if "authorization" in headers then Some(headers["authorization"]) else None
  }

  /**
   * `_check_authentication_permission`: the payload of the bearer token;
   * Unauthorize when there is no token, it is empty, or the validator
   * gives no payload or an empty one. Every failure inside is reported as
   * Unauthorize.
   */
  function AuthenticationPayload(headers: map<string, string>, validate: Validator): Result<Document, CustomException>
  {
    match BearerToken(AuthorizationHeader(headers))
    case None => Err(Unauthorize())
    case Some(token) =>
      if token == "" then Err(Unauthorize())
      else
        match validate(token)
        case None => Err(Unauthorize())
        case Some(payload) => if payload == map[] then Err(Unauthorize()) else Ok(payload)
  }

  /**
   * The gate's effect on the caller fields and its verdict: `None` lets
   * the endpoint run, `Some(e)` raises `e`. Fields set before a refusal
   * stay set.
   */
  function Gate(admin: bool, public: bool, caller: Caller, headers: map<string, string>, validate: Validator)
    : (Caller, Option<CustomException>)
  {
    if !public then
      match AuthenticationPayload(headers, validate)
      case Err(e) => (caller, Some(e))
      case Ok(payload) =>
        var bound := Caller(Get(payload, "user_id"), Get(payload, "user_type"), Bool(false));
        (bound, if admin && bound.userType != AdminRole then Some(Forbidden()) else None)
    else
      var marked := caller.(isPublicApi := Bool(true));
      (marked, if admin && marked.userType != AdminRole then Some(Forbidden()) else None)
  }

  class AccessControl {
    /** Only admin callers may run the endpoint. */
    const admin: bool
    /** The endpoint needs no token. */
    const public: bool

    constructor (admin: bool, public: bool)
      ensures this.admin == admin && this.public == public
    {
      this.admin := admin;
      this.public := public;
    }

    /**
     * The wrapper `__call__` puts around an endpoint, up to the call of
     * the endpoint: it updates the request context in place and returns
     * the refusal, if any.
     */
    method Decorated(commons: Commons, validate: Validator) returns (refusal: Option<CustomException>)
      modifies commons
      ensures (commons.Fields(), refusal) == Gate(admin, public, old(commons.Fields()), commons.headers, validate)
    {
      if !public {
        var payload := AuthenticationPayload(commons.headers, validate);
        if payload.Err? {
          return Some(payload.error);
        }
        commons.currentUser := Get(payload.value, "user_id");
        commons.userType := Get(payload.value, "user_type");
        commons.isPublicApi := Bool(false);
      } else {
        commons.isPublicApi := Bool(true);
      }
      if admin && commons.userType != AdminRole {
        return Some(Forbidden());
      }
      refusal := None;
    }
  }

  // ---------------------------------------------------------------- lemmas

  /**
   * The token is the text between the first `Bearer ` of the header and
   * the next one (or the end); there is one exactly when the header holds
   * the separator, and it never holds the separator itself.
   */
  lemma BearerTokenSpec(h: string)
    ensures BearerToken(Some(h)).Some? <==> Text.Contains(h, Bearer)
    ensures BearerToken(Some(h)).Some? ==>
      var i := Text.IndexOf(h, Bearer).value;
      var rest := h[i + |Bearer|..];
      var t := BearerToken(Some(h)).value;
      && !Text.Contains(t, Bearer)
      && (Text.IndexOf(rest, Bearer).None? ==> t == rest)
      && (Text.IndexOf(rest, Bearer).Some? ==> t == rest[..Text.IndexOf(rest, Bearer).value])
  {
    var parts := Text.Split(h, Bearer);
    if Text.IndexOf(h, Bearer).Some? {
      var i := Text.IndexOf(h, Bearer).value;
      var rest := h[i + |Bearer|..];
      assert parts == [h[..i]] + Text.Split(rest, Bearer);
      Text.SplitPiecesAreSeparatorFree(h, Bearer);
      assert parts[1] in parts;
    }
  }

  /** Every way the token check fails is Unauthorize, and a payload it returns is a non-empty one the validator gave. */
  lemma AuthenticationPayloadSpec(headers: map<string, string>, validate: Validator)
    ensures var r := AuthenticationPayload(headers, validate);
      && (r.Err? ==> r.error == Unauthorize())
      && (r.Ok? <==>
            var token := BearerToken(AuthorizationHeader(headers));
            && "authorization" in headers && token.Some? && token.value != ""
            && validate(token.value).Some? && validate(token.value).value != map[])
      && (r.Ok? ==> r.value == validate(BearerToken(AuthorizationHeader(headers)).value).value)
  {
  }

  /** A request without the header, or whose header has no `Bearer ` separator, is refused on a non-public endpoint, with the context untouched. */
  lemma MissingTokenRefused(admin: bool, caller: Caller, headers: map<string, string>, validate: Validator)
    requires "authorization" !in headers || !Text.Contains(headers["authorization"], Bearer)
    ensures Gate(admin, false, caller, headers, validate) == (caller, Some(Unauthorize()))
  {
    if "authorization" in headers {
      BearerTokenSpec(headers["authorization"]);
    }
  }

  /** A public endpoint never looks at the token: it runs for any headers and any validator, with the caller fields the middleware set. */
  lemma PublicIgnoresToken(admin: bool, caller: Caller, headers: map<string, string>, headers': map<string, string>,
                           validate: Validator, validate': Validator)
    ensures Gate(admin, true, caller, headers, validate) == Gate(admin, true, caller, headers', validate')
    ensures Gate(admin, true, caller, headers, validate).0 == caller.(isPublicApi := Bool(true))
    ensures !admin ==> Gate(admin, true, caller, headers, validate).1 == None
  {
  }

  /**
   * On a non-public endpoint that lets the caller in, the context holds the
   * payload's user id and role and is marked non-public.
   */
  lemma AdmittedCallerIsBound(admin: bool, caller: Caller, headers: map<string, string>, validate: Validator)
    ensures var (after, refusal) := Gate(admin, false, caller, headers, validate);
      refusal.None? ==>
        && AuthenticationPayload(headers, validate).Ok?
        && var payload := AuthenticationPayload(headers, validate).value;
        && after == Caller(Get(payload, "user_id"), Get(payload, "user_type"), Bool(false))
  {
  }

  /**
   * An admin endpoint runs only for a caller whose role is admin, public
   * or not; on a public one that role is whatever the middleware left in
   * the context. A refusal on a non-public endpoint is Unauthorize before
   * the payload is bound, or Forbidden after.
   */
  lemma AdminOnly(admin: bool, public: bool, caller: Caller, headers: map<string, string>, validate: Validator)
    ensures var (after, refusal) := Gate(admin, public, caller, headers, validate);
      && (admin && refusal.None? ==> after.userType == AdminRole)
      && (public ==> (refusal.None? <==> !admin || caller.userType == AdminRole))
      && (refusal.Some? ==> refusal.value == Unauthorize() || refusal.value == Forbidden())
      && (refusal == Some(Forbidden()) ==> admin && after.userType != AdminRole)
  {
    AuthenticationPayloadSpec(headers, validate);
  }
}
