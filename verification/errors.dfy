/**
 * The structured errors of the application (`ErrorCode` and the access
 * gate's `Forbidden`) and the other ways a call of the core can raise.
 */
module Errors {
  import opened Basics
  import Text

  /** The `(type, status, title, detail)` record every structured error carries. */
  datatype CustomException = CustomException(errorType: string, status: int, title: string, detail: string)

  function NotFound(serviceName: string, item: string): CustomException
  {
    CustomException(serviceName + "/warning/not-found", 404, "Not found.",
      Text.Capitalize(serviceName) + " with " + item + " could not be found.")
  }

  function NotModified(serviceName: string): CustomException
  {
    CustomException(serviceName + "/warning/not-modified", 304, "Not modified.",
      "Content has not changed since the last request. No update needed.")
  }

  function Conflict(serviceName: string, item: string): CustomException
  {
    CustomException(serviceName + "/warning/conflict", 409, "Conflict.",
      "The " + item + " data already exists. Please provide other data and try again.")
  }

  function InvalidObjectId(id: string): CustomException
  {
    CustomException("core/info/invalid-object-id", 400, "Invalid ID format.",
      "The id " + id + " is not a valid object id. Please provide a valid object id and try again.")
  }

  function InvalidEmail(email: string): CustomException
  {
    CustomException("core/info/invalid-email", 400, "Invalid email format.",
      "The " + email + " is not a valid email. Please provide a valid email and try again.")
  }

  function InvalidPhone(phone: string): CustomException
  {
    CustomException("core/info/invalid-phone", 400, "Invalid phone format.",
      "The " + phone + " is not a valid phone. Please provide a valid phone with 10 number and try again.")
  }

  function InvalidDate(date: string): CustomException
  {
    CustomException("core/info/invalid-date", 400, "Invalid date format.",
      "The " + date + " is not a valid date. Please provide a valid date with YYYY-MM-DD format and try again.")
  }

  function Unauthorize(): CustomException
  {
    CustomException("core/warning/unauthorize", 401, "Unauthorize.", "Could not authorize credentials")
  }

  /** The access gate's refusal for a caller without the admin role. */
  function Forbidden(): CustomException
  {
    CustomException("core/warning/forbidden", 403, "Forbidden.", "You do not have permission to access this resource.")
  }

  /** Which constructor built an error. */
  datatype Kind =
    | NotFoundKind | NotModifiedKind | ConflictKind
    | InvalidObjectIdKind | InvalidEmailKind | InvalidPhoneKind | InvalidDateKind
    | UnauthorizeKind | ForbiddenKind

  /** The error of kind `kind` for service `serviceName`; `item` fills the detail where the kind has one. */
  function Make(kind: Kind, serviceName: string, item: string): CustomException
  {
    match kind
    case NotFoundKind => NotFound(serviceName, item)
    case NotModifiedKind => NotModified(serviceName)
    case ConflictKind => Conflict(serviceName, item)
    case InvalidObjectIdKind => InvalidObjectId(item)
    case InvalidEmailKind => InvalidEmail(item)
    case InvalidPhoneKind => InvalidPhone(item)
    case InvalidDateKind => InvalidDate(item)
    case UnauthorizeKind => Unauthorize()
    case ForbiddenKind => Forbidden()
  }

  predicate EndsWith(s: string, suffix: string)
  {
    |suffix| <= |s| && s[|s| - |suffix|..] == suffix
  }

  /**
   * What a client learns from the machine-readable part of an error alone:
   * the kind, read off the status and the end of the type string.
   */
  function Classify(errorType: string, status: int): Option<Kind>
  {
    if status == 404 && EndsWith(errorType, "/warning/not-found") then Some(NotFoundKind)
    else if status == 304 && EndsWith(errorType, "/warning/not-modified") then Some(NotModifiedKind)
    else if status == 409 && EndsWith(errorType, "/warning/conflict") then Some(ConflictKind)
    else if status == 400 && errorType == "core/info/invalid-object-id" then Some(InvalidObjectIdKind)
    else if status == 400 && errorType == "core/info/invalid-email" then Some(InvalidEmailKind)
    else if status == 400 && errorType == "core/info/invalid-phone" then Some(InvalidPhoneKind)
    else if status == 400 && errorType == "core/info/invalid-date" then Some(InvalidDateKind)
    else if status == 401 && errorType == "core/warning/unauthorize" then Some(UnauthorizeKind)
    else if status == 403 && errorType == "core/warning/forbidden" then Some(ForbiddenKind)
    else None
  }

  lemma EndsWithAppended(prefix: string, suffix: string)
    ensures EndsWith(prefix + suffix, suffix)
  {
    assert (prefix + suffix)[|prefix|..] == suffix;
  }

  lemma ClassifyNotFound(kind: Kind, serviceName: string, item: string)
    requires kind == NotFoundKind
    ensures var e := Make(kind, serviceName, item); Classify(e.errorType, e.status) == Some(kind)
  {
    EndsWithAppended(serviceName, "/warning/not-found");
  }

  lemma ClassifyNotModified(kind: Kind, serviceName: string, item: string)
    requires kind == NotModifiedKind
    ensures var e := Make(kind, serviceName, item); Classify(e.errorType, e.status) == Some(kind)
  {
    EndsWithAppended(serviceName, "/warning/not-modified");
  }

  lemma ClassifyConflict(kind: Kind, serviceName: string, item: string)
    requires kind == ConflictKind
    ensures var e := Make(kind, serviceName, item); Classify(e.errorType, e.status) == Some(kind)
  {
    EndsWithAppended(serviceName, "/warning/conflict");
  }

  lemma ClassifyInvalidObjectId(kind: Kind, serviceName: string, item: string)
    requires kind == InvalidObjectIdKind
    ensures var e := Make(kind, serviceName, item); Classify(e.errorType, e.status) == Some(kind)
  {
  }

  lemma ClassifyInvalidEmail(kind: Kind, serviceName: string, item: string)
    requires kind == InvalidEmailKind
    ensures var e := Make(kind, serviceName, item); Classify(e.errorType, e.status) == Some(kind)
  {
  }

  lemma ClassifyInvalidPhone(kind: Kind, serviceName: string, item: string)
    requires kind == InvalidPhoneKind
    ensures var e := Make(kind, serviceName, item); Classify(e.errorType, e.status) == Some(kind)
  {
  }

  lemma ClassifyInvalidDate(kind: Kind, serviceName: string, item: string)
    requires kind == InvalidDateKind
    ensures var e := Make(kind, serviceName, item); Classify(e.errorType, e.status) == Some(kind)
  {
  }

  lemma ClassifyUnauthorize(kind: Kind, serviceName: string, item: string)
    requires kind == UnauthorizeKind
    ensures var e := Make(kind, serviceName, item); Classify(e.errorType, e.status) == Some(kind)
  {
  }

  lemma ClassifyForbidden(kind: Kind, serviceName: string, item: string)
    requires kind == ForbiddenKind
    ensures var e := Make(kind, serviceName, item); Classify(e.errorType, e.status) == Some(kind)
  {
  }

  /** Every error's `(type, status)` identifies the constructor that built it, whatever the service name. */
  lemma ClassifyMake(kind: Kind, serviceName: string, item: string)
    ensures var e := Make(kind, serviceName, item); Classify(e.errorType, e.status) == Some(kind)
  {
    match kind
    case NotFoundKind => ClassifyNotFound(kind, serviceName, item);
    case NotModifiedKind => ClassifyNotModified(kind, serviceName, item);
    case ConflictKind => ClassifyConflict(kind, serviceName, item);
    case InvalidObjectIdKind => ClassifyInvalidObjectId(kind, serviceName, item);
    case InvalidEmailKind => ClassifyInvalidEmail(kind, serviceName, item);
    case InvalidPhoneKind => ClassifyInvalidPhone(kind, serviceName, item);
    case InvalidDateKind => ClassifyInvalidDate(kind, serviceName, item);
    case UnauthorizeKind => ClassifyUnauthorize(kind, serviceName, item);
    case ForbiddenKind => ClassifyForbidden(kind, serviceName, item);
  }

  /** For one service name, different kinds give different `(type, status)` pairs. */
  lemma KindsAreDistinct(k1: Kind, k2: Kind, serviceName: string, item1: string, item2: string)
    requires k1 != k2
    ensures var e1, e2 := Make(k1, serviceName, item1), Make(k2, serviceName, item2);
      (e1.errorType, e1.status) != (e2.errorType, e2.status)
  {
    ClassifyMake(k1, serviceName, item1);
    ClassifyMake(k2, serviceName, item2);
  }

  /**
   * The documented shape of the service-scoped errors: a type prefixed by
   * the service name, a fixed status and title, a NotFound detail that opens
   * with the capitalized service name and names the item, a Conflict detail
   * that names the item.
   */
  lemma ServiceErrorShapes(serviceName: string, item: string)
    ensures NotFound(serviceName, item).errorType[..|serviceName|] == serviceName
    ensures NotFound(serviceName, item).status == 404 && NotFound(serviceName, item).title == "Not found."
    ensures var d := NotFound(serviceName, item).detail;
      |Text.Capitalize(serviceName)| == |serviceName| && d[..|serviceName|] == Text.Capitalize(serviceName)
      && d[|serviceName| + 6..|serviceName| + 6 + |item|] == item
    ensures NotModified(serviceName).status == 304
    ensures Conflict(serviceName, item).status == 409 && Conflict(serviceName, item).title == "Conflict."
    ensures Conflict(serviceName, item).detail[4..4 + |item|] == item
  {
    Text.CapitalizeShape(serviceName);
  }

  /** The conflict type the unit tests of the users service expect. */
  lemma UsersConflictType()
    ensures Conflict("users", "email").errorType == "users/warning/conflict"
  {
  }

  /** The not-found type the unit tests of the users service expect. */
  lemma UsersNotFoundType()
    ensures NotFound("users", "user_id").errorType == "users/warning/not-found"
  {
  }

  /** Everything a call of the core can raise. */
  datatype Failure =
    | Raised(exception: CustomException)   // one of the structured errors above
    | InvalidId(id: string)                 // bson rejected an id string
    | TypeError(message: string)
    | KeyError(key: string)
    | IndexError
    | ValueError(message: string)
    | AttributeError(message: string)
    | StoreError(message: string)           // the store refused the operation

  type Outcome<T> = Result<T, Failure>
}
