# fastapi-base-project core, modelled in Dafny

This project models the generic data layer and request gate of a FastAPI +
MongoDB backend template. It covers four parts:

- **`BaseCRUD`** (`app/db/base.py`): the adapter over one MongoDB collection.
  - The collection is a `BaseCrud` object. Its fields are the stored documents by `_id`, their insertion order, and the regex evaluator of the store.
  - Every adapter call is a method that changes or reads those fields. Each method is proved equal to a function of the collection state before the call (`SaveOutcome`, `UpdateByIdOutcome`, `GetAllOutcome`, ...).
  - The pure helpers are functions with their own contracts: special-character escaping, boolean coercion, `_id` conversion, the listing filter, paging.
- **`BaseServices`** (`app/core/services.py`): the service on top of one adapter.
  - It hides soft-deleted records and scopes lookups to the records a non-admin caller owns.
  - It refuses updates that change nothing and checks uniqueness.
  - It runs every update and delete as lookup, then checks, then write, then re-fetch.
  - Its methods are proved equal to functions of the adapter state (`FetchById`, `UpdateResult`, `HardDeleteResult`, ...). The lemmas after the class say what those functions mean for the stored records.
- **`access_control`** (`app/auth/decoractor.py`): the gate in front of an endpoint.
  - It reads the bearer token, validates it and binds the caller fields of the request context in place.
  - It marks public endpoints and refuses non-admin callers on admin endpoints.
  - The request context (`CommonsDependencies`, `app/core/schemas.py`) is a class whose caller fields the gate reassigns.
- **`ErrorCode`** (`app/core/exceptions.py`, and `Forbidden` from `app/auth/exceptions.py`): the structured errors.
  - Each kind's `(type, status)` pair identifies the constructor that built it.

The model of the store is MongoDB's, in these terms:

- A filter is a set of field conditions.
- A plain value means equality, and a missing field reads as `None`.
- `$or` holds a list of sub-filters.
- `$regex` is evaluated by an abstract predicate.
- Any other top-level operator is rejected.
- `_id` values are ObjectIds: 24 hexadecimal digits, stored in lower case.
- Sorting follows the store's cross-type order, with ties kept in insertion order (a choice of the model; see "## Left out"). `skip` and `limit` cut the sorted selection.

Files:

| file | contents |
|---|---|
| `basics.dfy` | `Option`, `Result` |
| `text.dfy` | the Python string operations the code relies on (`strip`, `split`, `capitalize`, `str(int)`) |
| `values.dfy` | Python/BSON values, `dict.get`, truthiness, `==` |
| `errors.dfy` | error constructors and failures |
| `store.dfy` | ObjectId parsing, filter matching, sort, skip/limit |
| `query.dfy` | the pure helpers of `BaseCRUD` |
| `crud.dfy` | class `BaseCrud` |
| `schemas.dfy` | class `Commons` |
| `services.dfy` | class `BaseServices` and its lemmas |
| `access.dfy` | class `AccessControl` and its lemmas |

## Model

| member | source | states |
|---|---|---|
| Query.Escape | app/db/base.py:90-95 | every special regex character gains exactly one backslash; the length grows by the number of special characters |
| Query.UnescapeEscape | app/db/base.py:72-96 | escaping loses no information: the original text is recovered from the escaped one |
| Query.EscapeIdentity | app/db/base.py:90-95 | a text is left unchanged exactly when it holds no special character |
| Query.ReplaceSpecialChars | app/db/base.py:92-96 | strings are escaped, dicts keep their keys and are escaped value by value, other values pass unchanged |
| Query.EscapeDocument | app/db/base.py:92-93 | a dict keeps its keys and each value is escaped |
| Query.RestoreReplace | app/db/base.py:72-96 | `replace_special_chars` is injective at every depth: it has a left inverse |
| Query.ConvertBools | app/db/base.py:63-70 | exactly the strings "true"/"false" become booleans; dicts keep keys, lists keep length, other values pass |
| Query.ConvertBoolsDocument | app/db/base.py:64-65 | a dict keeps its keys and each value is coerced |
| Query.ConvertBoolsIdempotent | app/db/base.py:51-70 | coercing twice is coercing once |
| Query.ConvertObjectIdToString | app/db/base.py:23-27 | only `_id` changes; a missing or `None` `_id` leaves the document as is; an ObjectId becomes its hex string |
| Query.BuildFieldProjection | app/db/base.py:29-49 | the projection maps exactly the stripped names (split on commas for a string) to 1; a falsy argument gives `{}` |
| Query.SearchClauses | app/db/base.py:353-356 | one case-insensitive `.*pattern.*` regex clause per searched field, in order |
| Query.ListFilter | app/db/base.py:341-356 | reserved paging keys are dropped; every other key is kept, escaped then coerced, including a caller's own `$or` when there is no search; a non-empty search replaces `$or` by the search clauses; a search without `search_in` fails |
| Query.TotalPages | app/db/base.py:374 | the ceiling of total/limit: the least page count that covers every record; 1 without a limit |
| Store.ObjectIdOf | app/db/base.py:193 | a successful conversion always yields an ObjectId |
| Store.ObjectIdOfSpec | app/db/base.py:193 | a string converts iff it has 24 hex digits, to its lower-case form, otherwise InvalidId; an ObjectId is kept; other types raise TypeError |
| Store.ObjectIdRoundTrip | app/db/base.py:109 | the string `save` returns names the stored id again |
| Store.SelectFrom | app/db/base.py:358 | `find` selects exactly the stored documents the filter matches, in insertion order, without repeats |
| Store.FindOne | app/db/base.py:256 | `find_one` returns a matching stored document, or none when no stored document matches |
| Store.SelectById | app/db/base.py:254-256 | a filter naming an ObjectId `_id` selects at most that one document |
| Store.InsertedValid | app/db/base.py:108 | inserting under a fresh key keeps the collection well formed |
| Store.ReplacedValid | app/db/base.py:194 | replacing a document with one of the same `_id` keeps the collection well formed |
| Store.RemovedValid | app/db/base.py:216 | removing a document keeps the collection well formed |
| Store.RemoveKey | app/db/base.py:216 | removal drops exactly that key and keeps the order duplicate-free |
| Store.SortKeysCorrect | app/db/base.py:359-360 | `sort` is a permutation of the selection and puts it in the requested order |
| Store.InsertKeySorted | app/db/base.py:359-360 | inserting one key into a sorted selection keeps it sorted and adds exactly that key |
| Store.ValueLeTotal | app/db/base.py:359-360 | the store's order on values is total |
| Store.ValueLeTransitive | app/db/base.py:359-360 | the store's order on values is transitive |
| Store.Window | app/db/base.py:361-364 | `skip` then `limit` keeps a contiguous slice of at most `limit` elements |
| Store.WindowSorted | app/db/base.py:359-364 | a page cut from a sorted selection is sorted |
| Crud.NewKeys | app/db/base.py:122 | each inserted document's key is its own `_id` or the generated one, in batch order |
| Crud.RenderAll | app/db/base.py:126-127 | the returned ids are the `str()` of the inserted keys, in order |
| Crud.Converted | app/db/base.py:369-371 | the i-th result is the document stored under the i-th listed key, with its `_id` as a string |
| Crud.SortedIfAsked | app/db/base.py:359-360 | with a sort field the keys are permuted into order; without one they are left as they are |
| Crud.ListedKeys | app/db/base.py:358-364 | every listed key is a stored document the filter matches; a limit bounds the page |
| Crud.FirstClash | app/db/base.py:122 | the first batch position whose key is already stored or repeated; every earlier one is fresh |
| Crud.SaveFromSpec | app/db/base.py:112-128 | the batch insert stores exactly the documents before the first clash, and returns all ids iff there is none |
| Crud.SaveManyOutcomeSpec | app/db/base.py:112-128 | `save_many` succeeds iff no key clashes, returning every id in order; otherwise the prefix stays inserted and a duplicate-key error is raised |
| Crud.SelectAll | app/db/base.py:20-21 | the empty filter counts every stored document |
| Crud.DistinctCard | app/db/base.py:20-21 | a duplicate-free key list has as many elements as its set |
| Crud.SaveThenGetById | app/db/base.py:98-110 | after `save`, `get_by_id` with the returned id finds the saved document |
| Crud.RemoveKeyIdempotent | app/db/base.py:216 | deleting a key twice is deleting it once |
| Crud.DeleteIsFinal | app/db/base.py:202-217 | after a delete no filter finds the document, and a second delete changes nothing |
| Crud.UpdateSetsOnlyGivenFields | app/db/base.py:178-200 | true only when the matching record changed; it then holds the given fields, keeps its other fields, and no other record changes; otherwise the collection is unchanged |
| Crud.ChangesIff | app/db/base.py:194-200 | `$set` modifies a record iff merging the data changes it |
| Crud.EscapedLiteralNotFound | app/db/base.py:279-281 | an equality lookup on a text with a special character never finds that text, because the escaped value is compared |
| Crud.PlainLiteralFound | app/db/base.py:279-281 | an equality lookup on a text without special characters finds it |
| Crud.PagesPartitionSelection | app/db/base.py:339-364 | consecutive pages neither overlap nor leave gaps: pages `1..n` are the first `n*limit` documents, and pages `1..total_page` are the whole listing |
| Crud.PagesCoverSelection | app/db/base.py:339-374 | a page is non-empty iff its number is at most `total_page` |
| Crud.ListedKeysSorted | app/db/base.py:359-364 | with a sort field the returned page is in the requested order |
| Crud.ListedKeysUnsorted | app/db/base.py:358-364 | without a sort field the page is the skip/limit slice of the selection in insertion order |
| Crud.BaseCrud.constructor | app/db/base.py:10-14 | the adapter holds the named collection with the given contents |
| Crud.BaseCrud.CountDocuments | app/db/base.py:20-21 | the number of documents the filter selects; a rejected filter fails |
| Crud.BaseCrud.Save | app/db/base.py:98-110 | inserts iff the key is new and returns its string; a duplicate key fails with nothing stored |
| Crud.BaseCrud.Insert | app/db/base.py:108 | the store's insert under a fresh key |
| Crud.BaseCrud.SaveMany | app/db/base.py:112-128 | the new state and result are `SaveManyOutcome` (see `SaveManyOutcomeSpec`) |
| Crud.BaseCrud.SaveUnique | app/db/base.py:130-160 | returns False with nothing stored iff the probe finds a record; otherwise inserts; a missing name or bad argument type raises with nothing stored |
| Crud.BaseCrud.UpdateById | app/db/base.py:178-200 | the new state and result are `UpdateByIdOutcome` (see `UpdateSetsOnlyGivenFields`) |
| Crud.BaseCrud.DeleteById | app/db/base.py:202-217 | the new state and result are `DeleteByIdOutcome` (see `DeleteStored`, `DeleteIsFinal`) |
| Crud.BaseCrud.DeleteFieldById | app/db/base.py:219-235 | removes the named fields from the record; true iff it held one; an unknown id gives false; unsetting `_id` fails |
| Crud.BaseCrud.GetById | app/db/base.py:238-260 | a bad id raises; otherwise the stored record under the id, with `_id` as a string, iff it matches the escaped query |
| Crud.BaseCrud.GetByField | app/db/base.py:262-285 | the first record the escaped `{field: value}` filter selects, converted, or `None` when none is selected |
| Crud.BaseCrud.Collect | app/db/base.py:311-313 | the cursor's documents in order, each with its `_id` converted |
| Crud.BaseCrud.GetAllByField | app/db/base.py:287-314 | every selected record, converted, in insertion order |
| Crud.BaseCrud.GetAll | app/db/base.py:316-378 | the page of the listed keys; `records_per_page` is its length and within the limit; `total_items` counts the whole selection; `total_page` covers it |
| Services.BaseServices.constructor | app/core/services.py:30-34 | the service holds its name, adapter and ownership field |
| Services.BaseServices.GetById | app/core/services.py:98-129 | a missing adapter raises ValueError; otherwise the scoped lookup; `None` only when errors are ignored |
| Services.BaseServices.GetAll | app/core/services.py:131-175 | the adapter's listing under the caller's query plus `deleted_at: None` and the ownership query |
| Services.BaseServices.GetByField | app/core/services.py:177-211 | the scoped lookup by field; `None` only when errors are ignored |
| Services.BaseServices.CheckModified | app/core/services.py:213-236 | the result is `ModifiedOutcome` (see `ModifiedSpec`) |
| Services.BaseServices.CheckUnique | app/core/services.py:238-267 | the result is `UniqueOutcome`, built from the probe `UniqueProbeSpec` characterises |
| Services.BaseServices.Save | app/core/services.py:269-282 | the new state and result are `SaveResult` (see `SaveThenFetch`) |
| Services.BaseServices.SaveMany | app/core/services.py:284-301 | the new state and result are `SaveManyResult` (see `SaveManyRefetchesInOrder`) |
| Services.BaseServices.SaveUnique | app/core/services.py:303-328 | the new state and result are `SaveUniqueResult`: a refusal, or a stored record whose `_id` is the empty text, raises Conflict unless errors are ignored; otherwise the stored record is re-fetched (see `SaveUniqueRefused`, `SaveUniqueAccepted`, `SaveUniqueEmptyIdConflict`) |
| Services.BaseServices.UpdateById | app/core/services.py:330-364 | the new state and result are `UpdateResult` (see `UpdateOnlyAfterChecks` and the lemmas after it) |
| Services.BaseServices.UpdateRecord | app/core/services.py:358-364 | on a found record: the checks, then the write and the re-fetch |
| Services.BaseServices.CheckBeforeUpdate | app/core/services.py:358-361 | the first failure of the modification check and then the uniqueness check |
| Services.BaseServices.WriteThenRefetch | app/core/services.py:362-363 | the unscoped write, then the re-fetch with deleted records included |
| Services.BaseServices.HardDeleteById | app/core/services.py:366-388 | the new state and result are `HardDeleteResult` (see `HardDeleteScope`) |
| Services.BaseServices.SoftDeleteById | app/core/services.py:390-407 | an update that stamps `deleted_at` and `deleted_by` with the caller; without a context it raises AttributeError and changes nothing |
| Services.UniqueProbeSpec | app/core/services.py:254-258 | the probe holds exactly the listed names whose value is truthy, with their values |
| Services.FirstTruthySpec | app/core/services.py:266 | the Conflict names the first listed field with a truthy value |
| Services.ProbeOfOne | app/core/services.py:254-258 | a single truthy name probes exactly that field and value |
| Services.FirstTruthyNonEmpty | app/core/services.py:259-260 | the check passes without querying iff no listed field is truthy |
| Services.ScopedMatches | app/core/services.py:117-126 | the scoped id filter is accepted and matches a record iff it has that `_id`, is not deleted (unless included) and belongs to the caller |
| Services.FetchByIdScoped | app/core/services.py:98-129 | a bad id raises; a visible stored record is returned converted; otherwise `None` with errors ignored, NotFound without |
| Services.FieldScopedMatches | app/core/services.py:199-208 | the scoped field filter is accepted and matches a record iff its field holds the escaped text, it is not deleted (unless included) and it belongs to the caller |
| Services.FieldSelected | app/core/services.py:199-208 | the scoped field lookup selects exactly the visible stored records whose field holds the escaped text |
| Services.FetchByFieldScoped | app/core/services.py:177-211 | some visible record holding the escaped text is returned converted; when there is none, `None` with errors ignored, NotFound naming the value without |
| Services.OwnerLookupOverridesScope | app/core/services.py:199-208 | a lookup on the ownership field gives the same result as one without the ownership condition |
| Services.DeletedLookupOverridesScope | app/db/base.py:279-281 | a lookup on `deleted_at` gives the same result whether or not deleted records are included |
| Services.OwnerLookupCrossesOwners | app/core/services.py:199-208 | a lookup on the ownership field under owner `u` finds a record of the looked-up owner whenever one is not deleted, whoever `u` is |
| Services.WriteThenFetchStored | app/core/services.py:362-363 | on a stored record the write merges the data, and the re-fetch returns the merged record even if it is now deleted |
| Services.UpdateFoundStored | app/core/services.py:358-364 | the collection changes only when a record is returned, and then by merging the data into it |
| Services.UpdateOnlyAfterChecks | app/core/services.py:330-364 | a returned record was visible to the caller and is the merge of old record and data; otherwise nothing is written; an invisible record gives `None` or NotFound |
| Services.UpdateOfVisible | app/core/services.py:355-357 | on a visible record the checks see the record as the lookup converted it |
| Services.UpdateNotModifiedRaises | app/core/services.py:358-359 | an update that changes nothing raises NotModified and writes nothing |
| Services.ChecksPassIgnoringErrors | app/core/services.py:234-235 | with errors ignored and the unique fields given as one plain name or a list of plain names, a failed check does not stop the update |
| Services.UpdateIgnoringErrorsWrites | app/core/services.py:330-364 | with errors ignored and the unique fields given as one plain name or a list of plain names, an update of a visible record always writes and returns the merge |
| Services.ChecksConflictWithItself | app/core/services.py:238-267 | the uniqueness check also counts the record being updated |
| Services.UpdateConflictsWithItself | app/core/services.py:360-361 | an update that keeps a unique field's current value raises Conflict and writes nothing |
| Services.SoftDeleteHides | app/core/services.py:390-407 | soft delete stamps the record, returns it, and a later lookup no longer finds it |
| Services.SoftDeleteModifies | app/core/services.py:403-406 | the stamp modifies a record that is not deleted, so the checks pass |
| Services.StampedHidden | app/core/services.py:117-119 | a record with a non-`None` `deleted_at` is hidden from lookups that exclude deleted records |
| Services.IdFilter | app/db/base.py:254-256 | the bare `_id` filter is accepted, escapes to itself and matches exactly that `_id` |
| Services.DeleteStored | app/core/services.py:385 | the unscoped delete removes the record under a well-formed id whenever there is one |
| Services.HardDeleteScope | app/core/services.py:366-388 | a visible record is removed; with errors ignored an invisible stored record is removed too; a missing one raises NotFound even then |
| Services.SaveThenFetch | app/core/services.py:269-282 | `save` stores the data and returns it re-fetched; data already marked deleted is stored but raises NotFound |
| Services.FetchFromOk | app/core/services.py:298-300 | a successful re-fetch loop returns, in order, what `get_by_id` returns for each id |
| Services.FetchFromErr | app/core/services.py:298-300 | a failed re-fetch loop raises the error of the first failing id |
| Services.SaveManyRefetchesInOrder | app/core/services.py:284-301 | `save_many` returns, in order, the re-fetched record for each inserted id; an adapter failure passes through |
| Services.SaveUniqueRefused | app/core/services.py:319-327 | when the value is taken nothing is stored; Conflict is raised, or with errors ignored the re-fetch of `False` fails |
| Services.SaveUniqueAccepted | app/core/services.py:319-328 | when the unique values are free, the data is stored under the new id and the stored record is returned re-fetched with its `_id` as a string (NotFound if the data is marked deleted), with or without ignoring errors |
| Services.UniqueProbeFree | app/db/base.py:130-160 | the adapter stores data whose unique values are free under the new id and returns that id |
| Services.SaveUniqueEmptyIdConflict | app/core/services.py:319-326 | data whose own `_id` is the empty text is stored, yet Conflict naming the unique value is raised |
| Services.ModifiedSpec | app/core/services.py:229-233 | audit fields never count; equal values do not count; a new field with a non-`None` value does |
| Services.ScopedListFilter | app/core/services.py:131-175 | the listing filter keeps `deleted_at: None` and the owner condition |
| Services.ListedDocument | app/db/base.py:369-371 | a listed document satisfies the scope conditions after its `_id` conversion |
| Services.ListingScoped | app/core/services.py:131-175 | every record `get_all` returns is not deleted (unless included) and belongs to the caller |
| Schemas.Commons.constructor | app/core/schemas.py:30-37 | the caller fields come from the request payload, all `None` without one |
| Access.AccessControl.constructor | app/auth/decoractor.py:25-27 | the gate records its admin and public flags |
| Access.AccessControl.Decorated | app/auth/decoractor.py:41-57 | the context update and the verdict are `Gate` (see the lemmas after it) |
| Access.BearerTokenSpec | app/auth/decoractor.py:31 | a token exists iff the header holds `Bearer `; it is the text after the first separator up to the next one |
| Access.AuthenticationPayloadSpec | app/auth/decoractor.py:29-39 | every failure is Unauthorize; success iff there is a non-empty token with a non-empty payload, which is returned |
| Access.MissingTokenRefused | app/auth/decoractor.py:29-39 | without a bearer header a protected endpoint refuses with Unauthorize and leaves the context alone |
| Access.PublicIgnoresToken | app/auth/decoractor.py:51-52 | a public endpoint's verdict does not depend on headers or validator; it only marks the context public |
| Access.AdmittedCallerIsBound | app/auth/decoractor.py:46-50 | an admitted caller on a protected endpoint has the payload's id and role in the context |
| Access.AdminOnly | app/auth/decoractor.py:53-54 | an admin endpoint runs only for an admin role; refusals are Unauthorize or Forbidden |
| Errors.ClassifyMake | app/core/exceptions.py:6-43 | every error's `(type, status)` identifies its constructor, whatever the service name |
| Errors.ClassifyNotFound | app/core/exceptions.py:6-7 | NotFound is recognised from its type suffix and 404 |
| Errors.ClassifyNotModified | app/core/exceptions.py:10-11 | NotModified is recognised from its type suffix and 304 |
| Errors.ClassifyConflict | app/core/exceptions.py:14-15 | Conflict is recognised from its type suffix and 409 |
| Errors.ClassifyInvalidObjectId | app/core/exceptions.py:17-21 | InvalidObjectId is recognised from its type and 400 |
| Errors.ClassifyInvalidEmail | app/core/exceptions.py:23-27 | InvalidEmail is recognised from its type and 400 |
| Errors.ClassifyInvalidPhone | app/core/exceptions.py:29-33 | InvalidPhone is recognised from its type and 400 |
| Errors.ClassifyInvalidDate | app/core/exceptions.py:35-39 | InvalidDate is recognised from its type and 400 |
| Errors.ClassifyUnauthorize | app/core/exceptions.py:42-43 | Unauthorize is recognised from its type and 401 |
| Errors.ClassifyForbidden | app/auth/exceptions.py:7-8 | Forbidden is recognised from its type and 403 |
| Errors.KindsAreDistinct | app/core/exceptions.py:6-43 | for one service, two kinds never share a `(type, status)` pair |
| Errors.ServiceErrorShapes | app/core/exceptions.py:6-15 | the service name prefixes the type; the capitalised name and the item appear in the detail; statuses and titles as given |
| Errors.UsersConflictType | tests/users/users_unit_test.py:39 | the users service's Conflict type is `users/warning/conflict` |
| Errors.UsersNotFoundType | tests/users/users_unit_test.py:90 | the users service's NotFound type is `users/warning/not-found` |
| Text.JoinSplit | app/db/base.py:44 | splitting on a separator and joining back gives the original text |
| Text.SplitPiecesAreSeparatorFree | app/auth/decoractor.py:31 | no piece of a split holds the separator |
| Text.StripIsSlice | app/db/base.py:47 | `strip()` keeps a contiguous middle slice |
| Text.StripEnds | app/db/base.py:47 | what `strip()` keeps neither starts nor ends with whitespace |
| Text.StripRemovesWhitespace | app/db/base.py:47 | `strip()` removes only whitespace |
| Text.StripIdempotent | app/db/base.py:47 | stripping twice is stripping once |
| Text.CapitalizeShape | app/core/exceptions.py:7 | `capitalize()` keeps the length, upper-cases the head, lower-cases the rest, and is idempotent |
| Values.PyEqReflexive | app/core/services.py:232 | every value is `==` to itself, so an unchanged field never counts as modified |
| Values.PyEqSymmetric | app/core/services.py:232 | `==` is symmetric |

## Left out

- I/O and `async`: every awaited call is a synchronous step on the modelled collection, and concurrent requests are not modelled.
- The driver's id generation and the clock are parameters. `save` takes the id the driver would generate, and `soft_delete_by_id` takes `now`.
- The token validator is a parameter of the gate. `auth_services.validate_access_token` is not part of this model: `app/auth/services.py` defines no such method.
- The endpoint that `access_control` wraps is not modelled. The gate's verdict says whether it runs.
- `CommonsDependencies` has no `headers` attribute in `app/core/schemas.py`, but the gate reads `commons.headers`. The model gives `Commons` a `headers` field, set by its constructor.
- The ownership field name comes from `app/core/config.py`, which is not part of this model. It is a constructor parameter of `BaseServices`.
- `get_current_datetime`, `get_current_user`, `get_current_user_type`: these are direct reads of the clock or the context, inlined where they are used.
- `set_collection` and `aggregate_by_pipeline`: the first only rebinds the handle, and the second runs an arbitrary pipeline. Aggregation stages are not modelled.
- Field projections are built (`BuildFieldProjection`) but not applied to returned documents. Results carry every field.
- `$regex` matching is an abstract predicate of the collection. Lemmas about search hold for any regex semantics.
- Filters with top-level operators other than `$or` are rejected by the modelled store instead of being evaluated.
- Store.Condition: a field condition whose value is a dict with operators other than `$regex` (`{"age": {"$gt": 5}}`) is compared as a literal sub-document, not evaluated as the operator; the code itself only builds equality, `$regex` and `$or` conditions.
- The query dict that `get_by_id`, `update_by_id` and `delete_by_id` mutate with `query.update` is a value in the model. Aliasing of the caller's dict is not captured.
- The default arguments of `get_all` (`page`/`limit` of `None`) are `0`, which the code treats the same as `None`.
- Services.BaseServices.CheckModified: visits the keys of the new data in an unspecified order, whereas Python follows insertion order. The order only decides which difference is seen first, and the result does not depend on it.
- Services.BaseServices.CheckUnique: requires an adapter. In the code it runs only after `ensure_crud_provided`, and without an adapter it would raise AttributeError.
- Services.ScopedMatches, FetchByIdScoped, UpdateOnlyAfterChecks, HardDeleteScope, ListingScoped: the caller's id is a string, and the ownership field is neither `_id`, `deleted_at` nor an operator. Other owner values are covered by the methods' contracts, but not by these lemmas.
- Services.FieldScopedMatches, FieldSelected, FetchByFieldScoped: the looked-up field is neither `_id`, `deleted_at`, an operator nor the ownership field. On `deleted_at` and on the ownership field, `get_by_field` writes the looked-up value over the scope's own condition, which drops it; `OwnerLookupOverridesScope`, `DeletedLookupOverridesScope` and `OwnerLookupCrossesOwners` state that case.
- Access.BearerToken: any exception inside the token check becomes Unauthorize, so a validator that raises and one that returns nothing are both `None`.
- Store.SortKeys, Crud.ListedKeys, Crud.ListedKeysUnsorted, Crud.GetByFieldOutcome: MongoDB does not promise an order for ties in a sort or for an unsorted `find`/`find_one`. The model fixes one: ties keep insertion order, and unsorted results come in insertion order, so `find_one` returns the first inserted match. These lemmas state that chosen order, not a guarantee of the server.
- Store.ValueLe: dicts compare equal to every other dict, and lists equal to every other list. MongoDB compares embedded documents field by field, and sorts an array by its least element ascending or its greatest descending. Sorting on a field that holds dicts or lists is therefore only modelled up to these ties.
- Text.Capitalize: maps ASCII letters only and keeps the length, whereas Python's `str.capitalize` uses Unicode title case, which can change the length (`"ßx"` gives `"Ssx"`). This only affects service names with non-ASCII letters; every service name in the code is an ASCII identifier.
- Values.Render: the `str()` of a dict, a list or a datetime is not spelled out; they render as the placeholders `"{...}"`, `"[...]"` and `"<datetime>"`. This reaches the ids `save_many` returns for dict or datetime `_id`s (`Crud.RenderAll`), the id `save` returns for such an `_id`, and the value named by Conflict and NotFound when it is one of these kinds.
- Text.Split: models `str.split` for a non-empty separator only, which is the only form the code uses.
