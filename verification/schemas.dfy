/**
 * `CommonsDependencies` (app/core/schemas.py): the per-request caller
 * context. The authentication middleware leaves a token payload on the
 * request; the access gate overwrites the caller fields in place; the
 * services read them.
 */
module Schemas {
  import opened Basics
  import opened Values

  /** `UserRoles.ADMIN`: the role the access gate demands and the services never scope. */
  const AdminRole := Str("admin")

  /** The caller fields of a request context, as values. */
  datatype Caller = Caller(currentUser: Value, userType: Value, isPublicApi: Value)

  class Commons {
    /** The caller's id (`current_user`), `None` when unknown. */
    var currentUser: Value
    /** The caller's role (`user_type`), `None` when unknown. */
    var userType: Value
    /** Whether the endpoint is public (`is_public_api`), `None` until decided. */
    var isPublicApi: Value
    /** The request headers the access gate reads the bearer token from. */
    const headers: map<string, string>

    /**
     * The context of a request: the caller fields come from the payload the
     * middleware left on the request (a missing key reads as `None`), and
     * are all `None` when there is no payload.
     */
    constructor (headers: map<string, string>, payload: Option<Document>)
      ensures this.headers == headers
      ensures payload.None? ==> currentUser == Null && userType == Null && isPublicApi == Null
      ensures payload.Some? ==>
        && currentUser == Get(payload.value, "user_id")
        && userType == Get(payload.value, "user_type")
        && isPublicApi == Get(payload.value, "is_public_api")
    {
      this.headers := headers;
      currentUser := Null;
      userType := Null;
      isPublicApi := Null;
      if payload.Some? {
        currentUser := Get(payload.value, "user_id");
        userType := Get(payload.value, "user_type");
        isPublicApi := Get(payload.value, "is_public_api");
      }
    }

    /** The caller fields as they are now. */
    function Fields(): Caller
      reads this
    {
      Caller(currentUser, userType, isPublicApi)
    }
  }
}
