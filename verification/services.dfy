/**
 * `BaseServices` (app/core/services.py): the domain-agnostic service on top
 * of one `BaseCRUD`. It hides soft-deleted records, scopes lookups to the
 * records a non-admin caller owns, refuses updates that change nothing,
 * checks uniqueness, and orders every update and delete as
 * check, then write, then re-fetch. The clock is a parameter; the caller
 * context is the request's `Commons`.
 *
 * Each operation that touches the store is a method of the class, proved
 * equal to a function of the collection's state before the call; the
 * lemmas after the class state what those functions promise.
 */
module Services {
  import opened Basics
  import opened Values
  import opened Errors
  import opened Store
  import opened Query
  import opened Crud
  import opened Schemas

  const NotIterable := "object is not iterable"
  const NoCommons := "'NoneType' object has no attribute 'current_user'"

  /** The message of `ensure_crud_provided`. */
  function CrudMissing(serviceName: string): string
  {
    "The 'crud' attribute must be provided for " + serviceName + " service."
  }

  /** The fields an update may carry without counting as a modification. */
  predicate IsAuditField(k: string)
  {
    k == "updated_at" || k == "updated_by"
  }

  /**
   * The filter a lookup sends: the caller's query, `deleted_at: None`
   * unless deleted records are included, then the ownership query.
   */
  function Scoped(query: Document, includeDeleted: bool, ownership: Option<Document>): Document
  {
    var q := if includeDeleted then query else query["deleted_at" := Null];
    if ownership.Some? then q + ownership.value else q
  }

  /** `get_by_id` of the service: the adapter's lookup under the scoped filter; NotFound unless errors are ignored. */
  function FetchById(svc: string, c: Collection, rx: Regex, id: Value, ignoreError: bool, includeDeleted: bool,
                     ownership: Option<Document>): Outcome<Option<Document>>
  {
    var item := GetByIdOutcome(c, rx, id, Scoped(map[], includeDeleted, ownership));
    if item == Ok(None) && !ignoreError then Err(Raised(NotFound(svc, Render(id)))) else item
  }

  /** `get_by_field` of the service, likewise, with the NotFound naming the value looked for. */
  function FetchByField(svc: string, c: Collection, rx: Regex, data: Value, fieldName: string, ignoreError: bool,
                        includeDeleted: bool, ownership: Option<Document>): Outcome<Option<Document>>
  {
    var item := GetByFieldOutcome(c, rx, data, fieldName, Scoped(map[], includeDeleted, ownership));
    if item == Ok(None) && !ignoreError then Err(Raised(NotFound(svc, Render(data)))) else item
  }

  // ---------------------------------------------------------------- _check_modified

  /** Some non-audit field of the new data differs (by Python's `!=`) from the old value, a missing one reading as `None`. */
  predicate Modified(oldData: Document, newData: Document)
  {
    exists k :: k in newData && !IsAuditField(k) && !PyEq(Get(oldData, k), newData[k])
  }

  /** What `_check_modified` returns or raises. */
  function ModifiedOutcome(svc: string, oldData: Document, newData: Document, ignoreError: bool): Outcome<bool>
  {
    if Modified(oldData, newData) then Ok(true)
    else if ignoreError then Ok(false)
    else Err(Raised(NotModified(svc)))
  }

  // ---------------------------------------------------------------- _check_unique

  /** The names `_check_unique` iterates: a single name as a one-element list. */
  function UniqueNames(unique: UniqueField): seq<string>
  {
    match unique
    case OneField(n) => [n]
    case FieldSet(names) => names
    case OtherType => []
  }

  /** The probe `_check_unique` builds from `names`, left to right: each name whose value in `data` is truthy. */
  function UniqueProbe(data: Document, names: seq<string>): Document
    decreases |names|
  {
    if names == [] then map[]
    else
      var q := UniqueProbe(data, names[..|names| - 1]);
      var f := names[|names| - 1];
      if Truthy(Get(data, f)) then q[f := data[f]] else q
  }

  /** The first of `names` whose value in `data` is truthy: the probe's first key. */
  function FirstTruthy(data: Document, names: seq<string>): Option<string>
    decreases |names|
  {
    if names == [] then None
    else
      match FirstTruthy(data, names[..|names| - 1])
      case Some(f) => Some(f)
      case None =>
        var f := names[|names| - 1];
        if Truthy(Get(data, f)) then Some(f) else None
  }

  /** What `_check_unique` returns or raises against a collection in state `c`. */
  function UniqueOutcome(svc: string, c: Collection, rx: Regex, data: Document, unique: UniqueField, ignoreError: bool)
    : Outcome<bool>
  {
    if unique.OtherType? then Err(TypeError(NotIterable))
    else
      var names := UniqueNames(unique);
      var probe := UniqueProbe(data, names);
      match FirstTruthy(data, names)
      case None => Ok(false)   // the probe is empty
      case Some(first) =>
        if !Accepted(probe) then Err(StoreError(RejectedFilter))
        else if Count(c, probe, rx) == 0 then Ok(true)
        else if ignoreError then Ok(false)
        else Err(Raised(Conflict(svc, Render(Get(data, first)))))
  }

  // ---------------------------------------------------------------- save paths

  /** `save` of the service: the adapter's insert, then the record re-fetched by the returned id. */
  function SaveResult(svc: string, c: Collection, rx: Regex, data: Document, newId: string)
    : (Collection, Outcome<Option<Document>>)
  {
    var (after, saved) := SaveOutcome(c, data, newId);
    if saved.Err? then (after, Err(saved.error))
    else (after, FetchById(svc, after, rx, Str(saved.value), false, false, None))
  }

  /** The records re-fetched for the ids from the `i`-th on, after `acc`; the first failure stops the loop. */
  function FetchFrom(svc: string, c: Collection, rx: Regex, ids: seq<string>, i: nat, acc: seq<Option<Document>>)
    : Outcome<seq<Option<Document>>>
    requires i <= |ids|
    decreases |ids| - i
  {
    if i == |ids| then Ok(acc)
    else
      match FetchById(svc, c, rx, Str(ids[i]), false, false, None)
      case Err(e) => Err(e)
      case Ok(item) => FetchFrom(svc, c, rx, ids, i + 1, acc + [item])
  }

  /** `save_many` of the service: the adapter's batch insert, then each record re-fetched in the order of the ids. */
  function SaveManyResult(svc: string, c: Collection, rx: Regex, data: seq<Document>, newIds: seq<string>)
    : (Collection, Outcome<seq<Option<Document>>>)
    requires |newIds| == |data|
  {
    var (after, saved) := SaveManyOutcome(c, data, newIds);
    if saved.Err? then (after, Err(saved.error))
    else (after, FetchFrom(svc, after, rx, saved.value, 0, []))
  }

  /**
   * The value a refused `save_unique` names: `data[unique_field[0]]` for a
   * list, `data[unique_field]` for one name.
   */
  function ConflictValue(data: Document, unique: UniqueField): Outcome<Value>
  {
    match unique
    case FieldSet(names) =>
      if names == [] then Err(IndexError)
      else if names[0] !in data then Err(KeyError(names[0]))
      else Ok(data[names[0]])
    case OneField(n) => if n !in data then Err(KeyError(n)) else Ok(data[n])
    case OtherType => Err(ValueError(UniqueFieldType))   // the adapter has already raised this
  }

  /**
   * `save_unique` of the service. A refusal, or a stored record whose `_id`
   * is the empty text (`not item` holds for both), raises Conflict unless
   * errors are ignored; then the re-fetch is handed `False` (or the empty
   * text) instead of an id.
   */
  function SaveUniqueResult(svc: string, c: Collection, rx: Regex, data: Document, unique: UniqueField,
                            ignoreError: bool, newId: string): (Collection, Outcome<Option<Document>>)
  {
    var (after, saved) := SaveUniqueOutcome(c, rx, data, unique, newId);
    (after, SaveUniqueFollowUp(svc, after, rx, data, unique, ignoreError, saved))
  }

  /** What `save_unique` of the service makes of the adapter's answer `saved`, over the collection `after` it left. */
  function SaveUniqueFollowUp(svc: string, after: Collection, rx: Regex, data: Document, unique: UniqueField,
                              ignoreError: bool, saved: Outcome<Option<string>>): Outcome<Option<Document>>
  {
    if saved.Err? then Err(saved.error)
    else if (saved.value.None? || saved.value.value == "") && !ignoreError then
      match ConflictValue(data, unique)
      case Err(e) => Err(e)
      case Ok(v) => Err(Raised(Conflict(svc, Render(v))))
    else
      var id := if saved.value.Some? then Str(saved.value.value) else Bool(false);
      FetchById(svc, after, rx, id, false, false, None)
  }

  // ---------------------------------------------------------------- update and delete

  /** `if unique_field:` — a non-empty name or a non-empty list (another type counts as given). */
  predicate UniqueGiven(unique: Option<UniqueField>)
  {
    match unique
    case None => false
    case Some(OneField(n)) => n != ""
    case Some(FieldSet(names)) => names != []
    case Some(OtherType) => true
  }

  /**
   * The checks `update_by_id` makes on the record it found, in order: that
   * something changes (when asked) and that the unique fields are free
   * (when given). Their failure, if any; a false result does not stop the
   * update.
   */
  function UpdateChecks(svc: string, c: Collection, rx: Regex, item: Document, data: Document,
                        unique: Option<UniqueField>, checkModified: bool, ignoreError: bool): Option<Failure>
  {
    var modified := if checkModified then ModifiedOutcome(svc, item, data, ignoreError) else Ok(true);
    if modified.Err? then Some(modified.error)
    else
      var uniqueOk := if UniqueGiven(unique) then UniqueOutcome(svc, c, rx, data, unique.value, ignoreError) else Ok(true);
      if uniqueOk.Err? then Some(uniqueOk.error) else None
  }

  /** The write of `update_by_id`, with no scope, then the re-fetch including deleted records and without ownership scope. */
  function WriteThenFetch(svc: string, c: Collection, rx: Regex, id: Value, data: Document, ignoreError: bool)
    : (Collection, Outcome<Option<Document>>)
  {
    var (after, written) := UpdateByIdOutcome(c, rx, id, data, map[]);
    if written.Err? then (after, Err(written.error))
    else (after, FetchById(svc, after, rx, id, ignoreError, true, None))
  }

  /** `update_by_id` once the record is found: the checks, then, if none fails, the write and the re-fetch. */
  function UpdateFound(svc: string, c: Collection, rx: Regex, id: Value, item: Document, data: Document,
                       unique: Option<UniqueField>, checkModified: bool, ignoreError: bool)
    : (Collection, Outcome<Option<Document>>)
  {
    match UpdateChecks(svc, c, rx, item, data, unique, checkModified, ignoreError)
    case Some(e) => (c, Err(e))
    case None => WriteThenFetch(svc, c, rx, id, data, ignoreError)
  }

  /** `update_by_id` of the service: the scoped lookup, the checks, then the write and the re-fetch. */
  function UpdateResult(svc: string, c: Collection, rx: Regex, id: Value, data: Document, unique: Option<UniqueField>,
                        checkModified: bool, ignoreError: bool, includeDeleted: bool, ownership: Option<Document>)
    : (Collection, Outcome<Option<Document>>)
  {
    var item := FetchById(svc, c, rx, id, ignoreError, includeDeleted, ownership);
    if item.Err? then (c, Err(item.error))
    else if item.value.None? then (c, Ok(None))   // reached only when errors are ignored
    else UpdateFound(svc, c, rx, id, item.value.value, data, unique, checkModified, ignoreError)
  }

  /**
   * `hard_delete_by_id` of the service: the scoped lookup, then an unscoped
   * delete; NotFound whenever nothing was removed, ignored errors or not.
   */
  function HardDeleteResult(svc: string, c: Collection, rx: Regex, id: Value, ignoreError: bool, includeDeleted: bool,
                            ownership: Option<Document>): (Collection, Outcome<bool>)
  {
    var item := FetchById(svc, c, rx, id, ignoreError, includeDeleted, ownership);
    if item.Err? then (c, Err(item.error))
    else
      var (after, deleted) := DeleteByIdOutcome(c, rx, id, map[]);
      if deleted.Err? then (after, Err(deleted.error))
      else if !deleted.value then (after, Err(Raised(NotFound(svc, Render(id)))))
      else (after, Ok(true))
  }

  /** The fields a soft delete sets. */
  function SoftDeleteData(now: int, user: Value): Document
  {
    map["deleted_at" := Time(now), "deleted_by" := user]
  }

  class BaseServices {
    const serviceName: string
    const crud: BaseCrud?
    /** The field naming a record's owner (a configuration setting). */
    const ownershipField: string

    ghost predicate Valid()
      reads crud
    {
      crud != null ==> crud.Valid()
    }

    /** A service named `serviceName` over `crud`, scoping records by `ownershipField`. */
    constructor (serviceName: string, crud: BaseCrud?, ownershipField: string)
      requires crud != null ==> crud.Valid()
      ensures Valid()
      ensures this.serviceName == serviceName && this.crud == crud && this.ownershipField == ownershipField
    {
      this.serviceName := serviceName;
      this.crud := crud;
      this.ownershipField := ownershipField;
    }

    /**
     * `build_ownership_query`: no scope without a caller context, for a
     * falsy caller id, or for an admin; otherwise exactly
     * `{ownership_field: caller id}`.
     */
    function BuildOwnershipQuery(commons: Commons?): (r: Option<Document>)
      reads commons
      ensures r.None? <==> commons == null || !Truthy(commons.currentUser) || commons.userType == AdminRole
      ensures r.Some? ==> r.value == map[ownershipField := commons.currentUser]
    {
      if commons == null then None
      else if !Truthy(commons.currentUser) then None
      else if commons.userType == AdminRole then None
      else Some(map[ownershipField := commons.currentUser])
    }

    /** `get_by_id` of the service. */
    method GetById(id: Value, fields: FieldsLimit, ignoreError: bool, includeDeleted: bool, commons: Commons?)
      returns (r: Outcome<Option<Document>>)
      requires Valid()
      ensures crud == null ==> r == Err(ValueError(CrudMissing(serviceName)))
      ensures crud != null ==>
        r == FetchById(serviceName, crud.State(), crud.regex, id, ignoreError, includeDeleted, BuildOwnershipQuery(commons))
      ensures r.Ok? && r.value.None? ==> ignoreError
    {
      if crud == null {
        r := Err(ValueError(CrudMissing(serviceName)));
      } else {
        var query := Scoped(map[], includeDeleted, BuildOwnershipQuery(commons));
        var item := crud.GetById(id, fields, query);
        r := if item == Ok(None) && !ignoreError then Err(Raised(NotFound(serviceName, Render(id)))) else item;
      }
    }

    /** `get_all` of the service: the adapter's listing under the scoped filter. */
    method GetAll(query: Document, search: Option<string>, searchIn: Option<seq<string>>, page: nat, limit: nat,
                  fields: FieldsLimit, sortBy: Option<string>, orderBy: Option<string>, includeDeleted: bool,
                  commons: Commons?) returns (r: Outcome<Listing>)
      requires Valid()
      ensures crud == null ==> r == Err(ValueError(CrudMissing(serviceName)))
      ensures crud != null ==>
        r == GetAllOutcome(crud.State(), crud.regex, Scoped(query, includeDeleted, BuildOwnershipQuery(commons)),
                           search, searchIn, page, limit, sortBy, orderBy)
    {
      if crud == null {
        return Err(ValueError(CrudMissing(serviceName)));
      }
      var scoped := Scoped(query, includeDeleted, BuildOwnershipQuery(commons));
      r := crud.GetAll(scoped, search, searchIn, page, limit, fields, sortBy, orderBy);
    }

    /** `get_by_field` of the service. */
    method GetByField(data: Value, fieldName: string, fields: FieldsLimit, ignoreError: bool, includeDeleted: bool,
                      commons: Commons?) returns (r: Outcome<Option<Document>>)
      requires Valid()
      ensures crud == null ==> r == Err(ValueError(CrudMissing(serviceName)))
      ensures crud != null ==>
        r == FetchByField(serviceName, crud.State(), crud.regex, data, fieldName, ignoreError, includeDeleted,
                          BuildOwnershipQuery(commons))
      ensures r.Ok? && r.value.None? ==> ignoreError
    {
      if crud == null {
        r := Err(ValueError(CrudMissing(serviceName)));
      } else {
        var query := Scoped(map[], includeDeleted, BuildOwnershipQuery(commons));
        var item := crud.GetByField(data, fieldName, fields, query);
        r := if item == Ok(None) && !ignoreError then Err(Raised(NotFound(serviceName, Render(data)))) else item;
      }
    }

    /**
     * `_check_modified`: true as soon as a non-audit field of the new data
     * differs from the old value; otherwise false when errors are ignored,
     * NotModified when not.
     */
    method CheckModified(oldData: Document, newData: Document, ignoreError: bool) returns (r: Outcome<bool>)
      ensures r == ModifiedOutcome(serviceName, oldData, newData, ignoreError)
    {
      var keys := newData.Keys;
      while keys != {}
        invariant keys <= newData.Keys
        invariant forall k :: k in newData && k !in keys ==> IsAuditField(k) || PyEq(Get(oldData, k), newData[k])
        decreases |keys|
      {
        var k :| k in keys;
        if !IsAuditField(k) && !PyEq(Get(oldData, k), newData[k]) {
          return Ok(true);
        }
        keys := keys - {k};
      }
      if ignoreError {
        return Ok(false);
      }
      return Err(Raised(NotModified(serviceName)));
    }

    /**
     * `_check_unique`: counts the records holding the truthy values of the
     * unique fields; no such value means false, no such record true, and a
     * clash false when errors are ignored, Conflict naming the first value
     * when not.
     */
    method CheckUnique(data: Document, unique: UniqueField, ignoreError: bool) returns (r: Outcome<bool>)
      requires Valid() && crud != null
      ensures r == UniqueOutcome(serviceName, crud.State(), crud.regex, data, unique, ignoreError)
    {
      if unique.OtherType? {
        r := Err(TypeError(NotIterable));
      } else {
        var names := UniqueNames(unique);
        var query: Document := map[];
        var first: Option<string> := None;
        for i := 0 to |names|
          invariant query == UniqueProbe(data, names[..i])
          invariant first == FirstTruthy(data, names[..i])
        {
          assert names[..i + 1][..i] == names[..i];
          var field := names[i];
          if Truthy(Get(data, field)) {
            query := query[field := data[field]];
            if first.None? {
              first := Some(field);
            }
          }
        }
        assert names[..|names|] == names;
        FirstTruthyNonEmpty(data, names);
        if query == map[] {
          r := Ok(false);
        } else {
          var total := crud.CountDocuments(query);
          r := if total.Err? then Err(total.error)
               else if total.value == 0 then Ok(true)
               else if ignoreError then Ok(false)
               else Err(Raised(Conflict(serviceName, Render(Get(data, first.value)))));
        }
      }
    }

    /** `save` of the service. */
    method Save(data: Document, newId: string) returns (r: Outcome<Option<Document>>)
      requires Valid() && SuppliedIdOk(data)
      requires crud != null ==> IsCanonicalHex(newId) && Oid(newId) !in crud.docs
      modifies crud
      ensures Valid()
      ensures crud == null ==> r == Err(ValueError(CrudMissing(serviceName)))
      ensures crud != null ==> (crud.State(), r) == SaveResult(serviceName, old(crud.State()), crud.regex, data, newId)
    {
      if crud == null {
        r := Err(ValueError(CrudMissing(serviceName)));
      } else {
        var item := crud.Save(data, newId);
        if item.Err? {
          r := Err(item.error);
        } else {
          r := GetById(Str(item.value), NoFields, false, false, null);
        }
      }
    }

    /** `save_many` of the service. */
    method SaveMany(data: seq<Document>, newIds: seq<string>) returns (r: Outcome<seq<Option<Document>>>)
      requires Valid() && |newIds| == |data|
      requires forall i :: 0 <= i < |data| ==> IsCanonicalHex(newIds[i]) && SuppliedIdOk(data[i])
      modifies crud
      ensures Valid()
      ensures crud == null ==> r == Err(ValueError(CrudMissing(serviceName)))
      ensures crud != null ==> (crud.State(), r) == SaveManyResult(serviceName, old(crud.State()), crud.regex, data, newIds)
    {
      if crud == null {
        return Err(ValueError(CrudMissing(serviceName)));
      }
      var items := crud.SaveMany(data, newIds);
      if items.Err? {
        return Err(items.error);
      }
      var ids := items.value;
      ghost var after := crud.State();
      ghost var goal := FetchFrom(serviceName, after, crud.regex, ids, 0, []);
      var results: seq<Option<Document>> := [];
      for i := 0 to |ids|
        invariant Valid() && crud.State() == after
        invariant FetchFrom(serviceName, crud.State(), crud.regex, ids, i, results) == goal
      {
        var item := GetById(Str(ids[i]), NoFields, false, false, null);
        if item.Err? {
          return Err(item.error);
        }
        results := results + [item.value];
      }
      r := Ok(results);
    }

    /** `save_unique` of the service. */
    method SaveUnique(data: Document, unique: UniqueField, ignoreError: bool, newId: string)
      returns (r: Outcome<Option<Document>>)
      requires Valid() && SuppliedIdOk(data)
      requires crud != null ==> IsCanonicalHex(newId) && Oid(newId) !in crud.docs
      modifies crud
      ensures Valid()
      ensures crud == null ==> r == Err(ValueError(CrudMissing(serviceName)))
      ensures crud != null ==>
        (crud.State(), r) == SaveUniqueResult(serviceName, old(crud.State()), crud.regex, data, unique, ignoreError, newId)
    {
      if crud == null {
        r := Err(ValueError(CrudMissing(serviceName)));
      } else {
        var item := crud.SaveUnique(data, unique, newId);
        if item.Err? {
          r := Err(item.error);
        } else if (item.value.None? || item.value.value == "") && !ignoreError {
          var value := ConflictValue(data, unique);
          r := if value.Err? then Err(value.error) else Err(Raised(Conflict(serviceName, Render(value.value))));
        } else {
          var id := if item.value.Some? then Str(item.value.value) else Bool(false);
          r := GetById(id, NoFields, false, false, null);
        }
      }
    }

    /** `update_by_id` of the service. */
    method UpdateById(id: Value, data: Document, unique: Option<UniqueField>, checkModified: bool, ignoreError: bool,
                      includeDeleted: bool, commons: Commons?) returns (r: Outcome<Option<Document>>)
      requires Valid()
      modifies crud
      ensures Valid()
      ensures crud == null ==> r == Err(ValueError(CrudMissing(serviceName)))
      ensures crud != null ==>
        (crud.State(), r) == UpdateResult(serviceName, old(crud.State()), crud.regex, id, data, unique, checkModified,
                                          ignoreError, includeDeleted, BuildOwnershipQuery(commons))
    {
      // a missing adapter fails in the lookup with the same error
      ghost var own := BuildOwnershipQuery(commons);
      var item := GetById(id, NoFields, ignoreError, includeDeleted, commons);
      if item.Err? {
        r := Err(item.error);
      } else if item.value.None? {
        r := Ok(None);
      } else {
        r := UpdateRecord(id, item.value.value, data, unique, checkModified, ignoreError);
      }
      assert BuildOwnershipQuery(commons) == own;
    }

    /** `update_by_id` on the record it found. */
    method UpdateRecord(id: Value, item: Document, data: Document, unique: Option<UniqueField>, checkModified: bool,
                        ignoreError: bool) returns (r: Outcome<Option<Document>>)
      requires Valid() && crud != null
      modifies crud
      ensures Valid()
      ensures (crud.State(), r) ==
              UpdateFound(serviceName, old(crud.State()), crud.regex, id, item, data, unique, checkModified, ignoreError)
    {
      var failure := CheckBeforeUpdate(item, data, unique, checkModified, ignoreError);
      if failure.Some? {
        r := Err(failure.value);
      } else {
        r := WriteThenRefetch(id, data, ignoreError);
      }
    }

    /** The checks of `update_by_id` on the record it found; the failure they raise, if any. */
    method CheckBeforeUpdate(item: Document, data: Document, unique: Option<UniqueField>, checkModified: bool,
                             ignoreError: bool) returns (failure: Option<Failure>)
      requires Valid() && crud != null
      ensures failure == UpdateChecks(serviceName, crud.State(), crud.regex, item, data, unique, checkModified, ignoreError)
    {
      failure := None;
      if checkModified {
        var modified := CheckModified(item, data, ignoreError);
        if modified.Err? {
          failure := Some(modified.error);
        }
      }
      if failure.None? && UniqueGiven(unique) {
        var uniqueOk := CheckUnique(data, unique.value, ignoreError);
        if uniqueOk.Err? {
          failure := Some(uniqueOk.error);
        }
      }
    }

    /** The write of `update_by_id` and the re-fetch after it. */
    method WriteThenRefetch(id: Value, data: Document, ignoreError: bool) returns (r: Outcome<Option<Document>>)
      requires Valid() && crud != null
      modifies crud
      ensures Valid()
      ensures (crud.State(), r) == WriteThenFetch(serviceName, old(crud.State()), crud.regex, id, data, ignoreError)
    {
      var written := crud.UpdateById(id, data, map[]);
      if written.Err? {
        r := Err(written.error);
      } else {
        r := GetById(id, NoFields, ignoreError, true, null);
      }
    }

    /** `hard_delete_by_id` of the service. */
    method HardDeleteById(id: Value, ignoreError: bool, includeDeleted: bool, commons: Commons?) returns (r: Outcome<bool>)
      requires Valid()
      modifies crud
      ensures Valid()
      ensures crud == null ==> r == Err(ValueError(CrudMissing(serviceName)))
      ensures crud != null ==>
        (crud.State(), r) == HardDeleteResult(serviceName, old(crud.State()), crud.regex, id, ignoreError, includeDeleted,
                                              BuildOwnershipQuery(commons))
    {
      if crud == null {
        r := Err(ValueError(CrudMissing(serviceName)));
      } else {
        var item := GetById(id, NoFields, ignoreError, includeDeleted, commons);
        if item.Err? {
          r := Err(item.error);
        } else {
          var deleted := crud.DeleteById(id, map[]);
          r := if deleted.Err? then Err(deleted.error)
               else if !deleted.value then Err(Raised(NotFound(serviceName, Render(id))))
               else Ok(true);
        }
      }
    }

    /**
     * `soft_delete_by_id`: an update, checked for modification, that sets
     * `deleted_at` to `now` and `deleted_by` to the caller.
     */
    method SoftDeleteById(id: Value, now: int, ignoreError: bool, commons: Commons?) returns (r: Outcome<Option<Document>>)
      requires Valid()
      modifies crud
      ensures Valid()
      ensures crud == null ==> r == Err(ValueError(CrudMissing(serviceName)))
      ensures crud != null && commons == null ==> r == Err(AttributeError(NoCommons)) && crud.State() == old(crud.State())
      ensures crud != null && commons != null ==>
        (crud.State(), r) == UpdateResult(serviceName, old(crud.State()), crud.regex, id,
                                          SoftDeleteData(now, commons.currentUser), None, true, ignoreError, false,
                                          BuildOwnershipQuery(commons))
    {
      if crud == null {
        r := Err(ValueError(CrudMissing(serviceName)));
      } else if commons == null {
        r := Err(AttributeError(NoCommons));
      } else {
        var data := SoftDeleteData(now, commons.currentUser);
        r := UpdateById(id, data, None, true, ignoreError, false, commons);
      }
    }
  }

  // ---------------------------------------------------------------- lemmas: _check_unique

  /** The probe holds exactly the names whose value in `data` is truthy, each with that value. */
  lemma {:induction false} UniqueProbeSpec(data: Document, names: seq<string>)
    ensures forall f :: f in UniqueProbe(data, names) <==> f in names && f in data && Truthy(data[f])
    ensures forall f :: f in UniqueProbe(data, names) ==> UniqueProbe(data, names)[f] == data[f]
    decreases |names|
  {
    if names != [] {
      var init := names[..|names| - 1];
      UniqueProbeSpec(data, init);
      assert forall f :: f in names <==> f in init || f == names[|names| - 1];
    }
  }

  /**
   * The first truthy name is the earliest name with a truthy value, and
   * there is one exactly when the probe is not empty.
   */
  lemma {:induction false} FirstTruthySpec(data: Document, names: seq<string>)
    ensures FirstTruthy(data, names).Some? <==> exists i :: 0 <= i < |names| && Truthy(Get(data, names[i]))
    ensures FirstTruthy(data, names).Some? ==>
      exists i :: 0 <= i < |names| && names[i] == FirstTruthy(data, names).value && Truthy(Get(data, names[i]))
        && forall j :: 0 <= j < i ==> !Truthy(Get(data, names[j]))
    decreases |names|
  {
    if names != [] {
      var n := |names| - 1;
      var init := names[..n];
      FirstTruthySpec(data, init);
      assert forall i :: 0 <= i < n ==> init[i] == names[i];
      if FirstTruthy(data, init).None? && Truthy(Get(data, names[n])) {
        assert forall j :: 0 <= j < n ==> !Truthy(Get(data, init[j]));
      }
    }
  }

  /** With one truthy name, the probe is that name and its value. */
  lemma ProbeOfOne(data: Document, f: string)
    requires f in data && Truthy(data[f])
    ensures UniqueProbe(data, [f]) == map[f := data[f]]
    ensures FirstTruthy(data, [f]) == Some(f)
  {
    assert [f][..0] == [];
  }

  lemma FirstTruthyNonEmpty(data: Document, names: seq<string>)
    ensures FirstTruthy(data, names).None? <==> UniqueProbe(data, names) == map[]
  {
    FirstTruthySpec(data, names);
    UniqueProbeSpec(data, names);
    if FirstTruthy(data, names).Some? {
      var i :| 0 <= i < |names| && Truthy(Get(data, names[i]));
      assert names[i] in UniqueProbe(data, names);
    }
  }

  // ---------------------------------------------------------------- lemmas: scoped lookups

  /** The ownership query of a caller whose id is the string `owner.1`, on the field `owner.0`. */
  function OwnerScope(owner: Option<(string, string)>): Option<Document>
  {
    if owner.Some? then Some(map[owner.value.0 := Str(owner.value.1)]) else None
  }

  /** A field an ownership query can name without clashing with the lookup's own conditions. */
  predicate ScopeField(f: string)
  {
    f != "_id" && f != "deleted_at" && !IsOperator(f)
  }

  /**
   * A stored document a scoped lookup sees: not soft-deleted unless deleted
   * records are included, and, when scoped, owned by the caller. The
   * caller's id is compared in its escaped form, as the lookup escapes the
   * whole filter.
   */
  predicate Visible(doc: Document, includeDeleted: bool, owner: Option<(string, string)>)
  {
    (includeDeleted || FieldEquals(doc, "deleted_at", Null))
    && (owner.Some? ==> FieldEquals(doc, owner.value.0, Str(Escape(owner.value.1))))
  }

  /** The filter of a scoped lookup by id is accepted, and selects the document under that id exactly when it is visible. */
  lemma ScopedMatches(doc: Document, oid: Value, includeDeleted: bool, owner: Option<(string, string)>, rx: Regex)
    requires oid.Oid?
    requires owner.Some? ==> ScopeField(owner.value.0)
    ensures var filter := EscapeDocument(Scoped(map[], includeDeleted, OwnerScope(owner))["_id" := oid]);
      && Accepted(filter)
      && (Matches(doc, filter, rx) <==> FieldEquals(doc, "_id", oid) && Visible(doc, includeDeleted, owner))
  {
    var filter := EscapeDocument(Scoped(map[], includeDeleted, OwnerScope(owner))["_id" := oid]);
    assert forall k :: k in filter ==> k == "_id" || k == "deleted_at" || (owner.Some? && k == owner.value.0);
    assert Condition(doc, "_id", filter["_id"], rx) <==> FieldEquals(doc, "_id", oid);
    if !includeDeleted {
      assert Condition(doc, "deleted_at", filter["deleted_at"], rx) <==> FieldEquals(doc, "deleted_at", Null);
    }
    if owner.Some? {
      var (f, u) := owner.value;
      assert Condition(doc, f, filter[f], rx) <==> FieldEquals(doc, f, Str(Escape(u)));
    }
  }

  /**
   * `get_by_id` of the service: an id that is not an ObjectId fails as the
   * driver fails; a visible stored record is returned with its `_id` as a
   * string; anything else, deleted and foreign records included, is None
   * when errors are ignored and NotFound otherwise.
   */
  lemma FetchByIdScoped(svc: string, c: Collection, rx: Regex, id: Value, ignoreError: bool, includeDeleted: bool,
                        owner: Option<(string, string)>)
    requires Valid(c)
    requires owner.Some? ==> ScopeField(owner.value.0)
    ensures var r := FetchById(svc, c, rx, id, ignoreError, includeDeleted, OwnerScope(owner));
      && (ObjectIdOf(id).Err? ==> r == Err(ObjectIdOf(id).error))
      && (ObjectIdOf(id).Ok? ==>
            var oid := ObjectIdOf(id).value;
            if oid in c.docs && Visible(c.docs[oid], includeDeleted, owner) then
              r == Ok(Some(ConvertObjectIdToString(c.docs[oid])))
            else if ignoreError then r == Ok(None)
            else r == Err(Raised(NotFound(svc, Render(id)))))
  {
    if ObjectIdOf(id).Ok? {
      var oid := ObjectIdOf(id).value;
      if oid in c.docs {
        ScopedMatches(c.docs[oid], oid, includeDeleted, owner, rx);
      } else {
        ScopedMatches(map[], oid, includeDeleted, owner, rx);
      }
    }
  }

  /**
   * The filter of a scoped lookup by a text field is accepted, and selects a
   * document exactly when the field holds the escaped text and the document
   * is visible.
   */
  lemma FieldScopedMatches(doc: Document, f: string, s: string, includeDeleted: bool, owner: Option<(string, string)>,
                           rx: Regex)
    requires ScopeField(f)
    requires owner.Some? ==> ScopeField(owner.value.0) && owner.value.0 != f
    ensures var filter := EscapeDocument(Scoped(map[], includeDeleted, OwnerScope(owner))[f := Str(s)]);
      && Accepted(filter)
      && (Matches(doc, filter, rx) <==> FieldEquals(doc, f, Str(Escape(s))) && Visible(doc, includeDeleted, owner))
  {
    var filter := EscapeDocument(Scoped(map[], includeDeleted, OwnerScope(owner))[f := Str(s)]);
    assert forall k :: k in filter ==> k == f || k == "deleted_at" || (owner.Some? && k == owner.value.0);
    assert Condition(doc, f, filter[f], rx) <==> FieldEquals(doc, f, Str(Escape(s)));
    if !includeDeleted {
      assert Condition(doc, "deleted_at", filter["deleted_at"], rx) <==> FieldEquals(doc, "deleted_at", Null);
    }
    if owner.Some? {
      var (o, u) := owner.value;
      assert Condition(doc, o, filter[o], rx) <==> FieldEquals(doc, o, Str(Escape(u)));
    }
  }

  /** The records a scoped lookup by a text field selects are exactly the visible ones holding the escaped text. */
  lemma FieldSelected(c: Collection, rx: Regex, s: string, f: string, includeDeleted: bool, owner: Option<(string, string)>)
    requires Valid(c)
    requires ScopeField(f)
    requires owner.Some? ==> ScopeField(owner.value.0) && owner.value.0 != f
    ensures var filter := EscapeDocument(Scoped(map[], includeDeleted, OwnerScope(owner))[f := Str(s)]);
      && Accepted(filter)
      && forall k :: k in Select(c, filter, rx) <==>
           k in c.docs && FieldEquals(c.docs[k], f, Str(Escape(s))) && Visible(c.docs[k], includeDeleted, owner)
  {
    var filter := EscapeDocument(Scoped(map[], includeDeleted, OwnerScope(owner))[f := Str(s)]);
    FieldScopedMatches(map[], f, s, includeDeleted, owner, rx);
    forall k | k in c.docs
      ensures Matches(c.docs[k], filter, rx) <==>
              FieldEquals(c.docs[k], f, Str(Escape(s))) && Visible(c.docs[k], includeDeleted, owner)
    {
      FieldScopedMatches(c.docs[k], f, s, includeDeleted, owner, rx);
    }
  }

  /**
   * `get_by_field` of the service on a text value: some visible record whose
   * field holds the escaped text is returned with its `_id` as a string;
   * when there is none, None if errors are ignored and NotFound naming the
   * value otherwise.
   */
  lemma FetchByFieldScoped(svc: string, c: Collection, rx: Regex, s: string, f: string, ignoreError: bool,
                           includeDeleted: bool, owner: Option<(string, string)>)
    requires Valid(c)
    requires ScopeField(f)
    requires owner.Some? ==> ScopeField(owner.value.0) && owner.value.0 != f
    ensures var r := FetchByField(svc, c, rx, Str(s), f, ignoreError, includeDeleted, OwnerScope(owner));
      var found := exists k :: k in c.docs && FieldEquals(c.docs[k], f, Str(Escape(s)))
                               && Visible(c.docs[k], includeDeleted, owner);
      && (found ==>
            r.Ok? && r.value.Some?
            && exists k :: k in c.docs && r.value.value == ConvertObjectIdToString(c.docs[k])
                           && FieldEquals(c.docs[k], f, Str(Escape(s))) && Visible(c.docs[k], includeDeleted, owner))
      && (!found ==> r == (if ignoreError then Ok(None) else Err(Raised(NotFound(svc, Render(Str(s)))))))
  {
    FieldSelected(c, rx, s, f, includeDeleted, owner);
    FetchByFieldSelects(svc, c, rx, Str(s), f, ignoreError, includeDeleted, OwnerScope(owner));
  }

  /** An accepted lookup by field returns the first record it selects, converted, or the not-found outcome. */
  lemma FetchByFieldSelects(svc: string, c: Collection, rx: Regex, v: Value, f: string, ignoreError: bool,
                            includeDeleted: bool, ownership: Option<Document>)
    requires Accepted(EscapeDocument(Scoped(map[], includeDeleted, ownership)[f := v]))
    ensures var selected := Select(c, EscapeDocument(Scoped(map[], includeDeleted, ownership)[f := v]), rx);
      var r := FetchByField(svc, c, rx, v, f, ignoreError, includeDeleted, ownership);
      && (selected == [] ==> r == (if ignoreError then Ok(None) else Err(Raised(NotFound(svc, Render(v))))))
      && (selected != [] ==> selected[0] in selected && selected[0] in c.docs
                             && r == Ok(Some(ConvertObjectIdToString(c.docs[selected[0]]))))
  {
  }

  /**
   * `get_by_field` writes the looked-up value over the scope's own key, so
   * a lookup on the ownership field drops the caller's ownership condition.
   */
  lemma OwnerLookupOverridesScope(svc: string, c: Collection, rx: Regex, v: Value, ignoreError: bool,
                                  includeDeleted: bool, o: string, u: string)
    ensures FetchByField(svc, c, rx, v, o, ignoreError, includeDeleted, OwnerScope(Some((o, u))))
            == FetchByField(svc, c, rx, v, o, ignoreError, includeDeleted, None)
  {
    var owned, open := Scoped(map[], includeDeleted, OwnerScope(Some((o, u)))), Scoped(map[], includeDeleted, None);
    assert owned[o := v] == open[o := v];
    assert GetByFieldOutcome(c, rx, v, o, owned) == GetByFieldOutcome(c, rx, v, o, open);
  }

  /** Likewise a lookup on `deleted_at` drops the "not deleted" condition of the scope. */
  lemma DeletedLookupOverridesScope(svc: string, c: Collection, rx: Regex, v: Value, ignoreError: bool,
                                    ownership: Option<Document>)
    ensures FetchByField(svc, c, rx, v, "deleted_at", ignoreError, false, ownership)
            == FetchByField(svc, c, rx, v, "deleted_at", ignoreError, true, ownership)
  {
    var live, all := Scoped(map[], false, ownership), Scoped(map[], true, ownership);
    assert live["deleted_at" := v] == all["deleted_at" := v];
    assert GetByFieldOutcome(c, rx, v, "deleted_at", live) == GetByFieldOutcome(c, rx, v, "deleted_at", all);
  }

  /**
   * A lookup on the ownership field itself, under the scope of owner `u`,
   * finds a record holding the looked-up owner `s` whenever one is visible
   * apart from ownership: with `s` other than `u`, another owner's record.
   */
  lemma OwnerLookupCrossesOwners(svc: string, c: Collection, rx: Regex, s: string, o: string, u: string,
                                 ignoreError: bool, includeDeleted: bool, k: Value)
    requires Valid(c) && ScopeField(o)
    requires k in c.docs && FieldEquals(c.docs[k], o, Str(Escape(s))) && Visible(c.docs[k], includeDeleted, None)
    ensures var r := FetchByField(svc, c, rx, Str(s), o, ignoreError, includeDeleted, OwnerScope(Some((o, u))));
      && r.Ok? && r.value.Some?
      && exists j :: j in c.docs && r.value.value == ConvertObjectIdToString(c.docs[j])
                     && FieldEquals(c.docs[j], o, Str(Escape(s)))
  {
    OwnerLookupOverridesScope(svc, c, rx, Str(s), ignoreError, includeDeleted, o, u);
    FetchByFieldScoped(svc, c, rx, s, o, ignoreError, includeDeleted, None);
  }

  // ---------------------------------------------------------------- lemmas: update_by_id

  /**
   * The write and re-fetch of `update_by_id` on a stored record: data that
   * would change `_id` is refused before anything is written; otherwise the
   * data is merged into the record and the merged record is returned.
   */
  lemma WriteThenFetchStored(svc: string, c: Collection, rx: Regex, id: Value, data: Document, ignoreError: bool)
    requires Valid(c) && ObjectIdOf(id).Ok? && ObjectIdOf(id).value in c.docs
    ensures var oid := ObjectIdOf(id).value;
      var (after, r) := WriteThenFetch(svc, c, rx, id, data, ignoreError);
      if "_id" in data && data["_id"] != oid then after == c && r == Err(StoreError(ImmutableId))
      else
        && Valid(after)
        && after == Replaced(c, oid, c.docs[oid] + data)
        && r == Ok(Some(ConvertObjectIdToString(c.docs[oid] + data)))
  {
    var oid := ObjectIdOf(id).value;
    var doc := c.docs[oid];
    ScopedMatches(doc, oid, true, None, rx);
    assert Scoped(map[], true, OwnerScope(None))["_id" := oid] == map["_id" := oid];
    assert map["_id" := oid] == map[]["_id" := oid];
    assert EscapeDocument(map["_id" := oid]) == map["_id" := oid];
    if !("_id" in data && data["_id"] != oid) {
      ReplacedValid(c, oid, doc + data);
      FetchByIdScoped(svc, Replaced(c, oid, doc + data), rx, id, ignoreError, true, None);
    }
  }

  /**
   * `update_by_id` on a found record: either a check fails or the data
   * would change `_id`, and nothing is written, or the record is merged
   * with `data` and returned.
   */
  lemma UpdateFoundStored(svc: string, c: Collection, rx: Regex, id: Value, item: Document, data: Document,
                          unique: Option<UniqueField>, checkModified: bool, ignoreError: bool)
    requires Valid(c) && ObjectIdOf(id).Ok? && ObjectIdOf(id).value in c.docs
    ensures var oid := ObjectIdOf(id).value;
      var (after, r) := UpdateFound(svc, c, rx, id, item, data, unique, checkModified, ignoreError);
      && Valid(after)
      && (r.Ok? && r.value.Some? ==>
            after == Replaced(c, oid, c.docs[oid] + data) && r.value.value == ConvertObjectIdToString(c.docs[oid] + data))
      && (!(r.Ok? && r.value.Some?) ==> after == c)
  {
    if UpdateChecks(svc, c, rx, item, data, unique, checkModified, ignoreError).None? {
      WriteThenFetchStored(svc, c, rx, id, data, ignoreError);
    }
  }

  /**
   * `update_by_id` writes only after the lookup and the checks pass: a
   * record returned means the visible record under `id` was merged with
   * `data` (and nothing else changed); an error or None means the
   * collection is as it was. A missing, deleted or foreign record is None
   * when errors are ignored and NotFound otherwise.
   */
  lemma UpdateOnlyAfterChecks(svc: string, c: Collection, rx: Regex, id: Value, data: Document,
                              unique: Option<UniqueField>, checkModified: bool, ignoreError: bool,
                              includeDeleted: bool, owner: Option<(string, string)>)
    requires Valid(c)
    requires owner.Some? ==> ScopeField(owner.value.0)
    ensures var (after, r) :=
        UpdateResult(svc, c, rx, id, data, unique, checkModified, ignoreError, includeDeleted, OwnerScope(owner));
      && Valid(after)
      && (r.Ok? && r.value.Some? ==>
            var oid := ObjectIdOf(id).value;
            && ObjectIdOf(id).Ok? && oid in c.docs && Visible(c.docs[oid], includeDeleted, owner)
            && after == Replaced(c, oid, c.docs[oid] + data)
            && r.value.value == ConvertObjectIdToString(c.docs[oid] + data))
      && (!(r.Ok? && r.value.Some?) ==> after == c)
      && (ObjectIdOf(id).Ok? &&
          !(ObjectIdOf(id).value in c.docs && Visible(c.docs[ObjectIdOf(id).value], includeDeleted, owner)) ==>
            r == (if ignoreError then Ok(None) else Err(Raised(NotFound(svc, Render(id))))))
  {
    FetchByIdScoped(svc, c, rx, id, ignoreError, includeDeleted, owner);
    var item := FetchById(svc, c, rx, id, ignoreError, includeDeleted, OwnerScope(owner));
    if item.Ok? && item.value.Some? {
      UpdateFoundStored(svc, c, rx, id, item.value.value, data, unique, checkModified, ignoreError);
    }
  }

  /** On a visible record, `update_by_id` goes on to the checks with the record as the lookup returned it. */
  lemma UpdateOfVisible(svc: string, c: Collection, rx: Regex, id: Value, data: Document, unique: Option<UniqueField>,
                        checkModified: bool, ignoreError: bool, includeDeleted: bool, owner: Option<(string, string)>)
    requires Valid(c)
    requires owner.Some? ==> ScopeField(owner.value.0)
    requires ObjectIdOf(id).Ok? && ObjectIdOf(id).value in c.docs
    requires Visible(c.docs[ObjectIdOf(id).value], includeDeleted, owner)
    ensures UpdateResult(svc, c, rx, id, data, unique, checkModified, ignoreError, includeDeleted, OwnerScope(owner))
            == UpdateFound(svc, c, rx, id, ConvertObjectIdToString(c.docs[ObjectIdOf(id).value]), data, unique,
                           checkModified, ignoreError)
  {
    FetchByIdScoped(svc, c, rx, id, ignoreError, includeDeleted, owner);
  }

  /** An update of a visible record that changes nothing raises NotModified, when asked to check and errors are not ignored. */
  lemma UpdateNotModifiedRaises(svc: string, c: Collection, rx: Regex, id: Value, data: Document,
                                unique: Option<UniqueField>, includeDeleted: bool, owner: Option<(string, string)>)
    requires Valid(c)
    requires owner.Some? ==> ScopeField(owner.value.0)
    requires ObjectIdOf(id).Ok? && ObjectIdOf(id).value in c.docs
    requires Visible(c.docs[ObjectIdOf(id).value], includeDeleted, owner)
    requires !Modified(ConvertObjectIdToString(c.docs[ObjectIdOf(id).value]), data)
    ensures UpdateResult(svc, c, rx, id, data, unique, true, false, includeDeleted, OwnerScope(owner))
            == (c, Err(Raised(NotModified(svc))))
  {
    UpdateOfVisible(svc, c, rx, id, data, unique, true, false, includeDeleted, owner);
  }

  /** A unique-field argument naming only plain fields: one name or a list of names, none of them an operator. */
  predicate PlainNames(unique: UniqueField)
  {
    match unique
    case OneField(n) => !IsOperator(n)
    case FieldSet(names) => forall n :: n in names ==> !IsOperator(n)
    case OtherType => false
  }

  /** With errors ignored, neither check fails when the unique fields, if given, are plain names. */
  lemma ChecksPassIgnoringErrors(svc: string, c: Collection, rx: Regex, item: Document, data: Document,
                                 unique: Option<UniqueField>, checkModified: bool)
    requires unique.Some? ==> PlainNames(unique.value)
    ensures UpdateChecks(svc, c, rx, item, data, unique, checkModified, true) == None
  {
    if unique.Some? {
      var names := UniqueNames(unique.value);
      assert forall n :: n in names ==> !IsOperator(n);
      UniqueProbeSpec(data, names);
      assert Accepted(UniqueProbe(data, names));
    }
  }

  /**
   * With errors ignored, the checks never stop an update of a visible
   * record: an update that changes nothing, or that repeats a unique value
   * another record holds, is written all the same (the checks' false result
   * is discarded).
   */
  lemma UpdateIgnoringErrorsWrites(svc: string, c: Collection, rx: Regex, id: Value, data: Document,
                                   unique: Option<UniqueField>, checkModified: bool, includeDeleted: bool,
                                   owner: Option<(string, string)>)
    requires Valid(c)
    requires owner.Some? ==> ScopeField(owner.value.0)
    requires ObjectIdOf(id).Ok? && ObjectIdOf(id).value in c.docs
    requires Visible(c.docs[ObjectIdOf(id).value], includeDeleted, owner)
    requires unique.Some? ==> PlainNames(unique.value)
    requires !("_id" in data && data["_id"] != ObjectIdOf(id).value)
    ensures var oid := ObjectIdOf(id).value;
      UpdateResult(svc, c, rx, id, data, unique, checkModified, true, includeDeleted, OwnerScope(owner))
      == (Replaced(c, oid, c.docs[oid] + data), Ok(Some(ConvertObjectIdToString(c.docs[oid] + data))))
  {
    var item := ConvertObjectIdToString(c.docs[ObjectIdOf(id).value]);
    UpdateOfVisible(svc, c, rx, id, data, unique, checkModified, true, includeDeleted, owner);
    ChecksPassIgnoringErrors(svc, c, rx, item, data, unique, checkModified);
    WriteThenFetchStored(svc, c, rx, id, data, true);
  }

  /** The uniqueness check counts every record holding the value, the one under `oid` included. */
  lemma ChecksConflictWithItself(svc: string, c: Collection, rx: Regex, oid: Value, item: Document, data: Document,
                                 f: string, checkModified: bool)
    requires Valid(c) && oid in c.docs
    requires f != "" && !IsOperator(f) && f in data && Truthy(data[f]) && !IsRegexCondition(data[f])
    requires FieldEquals(c.docs[oid], f, data[f])
    requires checkModified ==> Modified(item, data)
    ensures UpdateChecks(svc, c, rx, item, data, Some(OneField(f)), checkModified, false)
            == Some(Raised(Conflict(svc, Render(data[f]))))
  {
    var probe := UniqueProbe(data, [f]);
    ProbeOfOne(data, f);
    assert Matches(c.docs[oid], probe, rx) by {
      assert Condition(c.docs[oid], f, data[f], rx);
    }
    assert oid in Select(c, probe, rx);
    assert Accepted(probe);
    assert UniqueOutcome(svc, c, rx, data, OneField(f), false) == Err(Raised(Conflict(svc, Render(data[f]))));
  }

  /**
   * The uniqueness check of `update_by_id` does not leave out the record
   * being updated: repeating the unique value the record itself already
   * holds raises Conflict, and nothing is written.
   */
  lemma UpdateConflictsWithItself(svc: string, c: Collection, rx: Regex, id: Value, data: Document, f: string,
                                  checkModified: bool, includeDeleted: bool, owner: Option<(string, string)>)
    requires Valid(c)
    requires owner.Some? ==> ScopeField(owner.value.0)
    requires ObjectIdOf(id).Ok? && ObjectIdOf(id).value in c.docs
    requires Visible(c.docs[ObjectIdOf(id).value], includeDeleted, owner)
    requires f != "" && !IsOperator(f) && f in data && Truthy(data[f]) && !IsRegexCondition(data[f])
    requires FieldEquals(c.docs[ObjectIdOf(id).value], f, data[f])
    requires checkModified ==> Modified(ConvertObjectIdToString(c.docs[ObjectIdOf(id).value]), data)
    ensures UpdateResult(svc, c, rx, id, data, Some(OneField(f)), checkModified, false, includeDeleted, OwnerScope(owner))
            == (c, Err(Raised(Conflict(svc, Render(data[f])))))
  {
    var oid := ObjectIdOf(id).value;
    var item := ConvertObjectIdToString(c.docs[oid]);
    UpdateOfVisible(svc, c, rx, id, data, Some(OneField(f)), checkModified, false, includeDeleted, owner);
    ChecksConflictWithItself(svc, c, rx, oid, item, data, f, checkModified);
  }

  // ---------------------------------------------------------------- lemmas: deletes

  /**
   * `soft_delete_by_id` of a visible record stamps it as deleted by the
   * caller, returns it so stamped, and hides it from every later lookup
   * that leaves deleted records out.
   */
  lemma SoftDeleteHides(svc: string, c: Collection, rx: Regex, id: Value, now: int, user: Value, ignoreError: bool,
                        owner: Option<(string, string)>)
    requires Valid(c)
    requires owner.Some? ==> ScopeField(owner.value.0)
    requires ObjectIdOf(id).Ok? && ObjectIdOf(id).value in c.docs
    requires Visible(c.docs[ObjectIdOf(id).value], false, owner)
    ensures var oid := ObjectIdOf(id).value;
      var data := SoftDeleteData(now, user);
      var (after, r) := UpdateResult(svc, c, rx, id, data, None, true, ignoreError, false, OwnerScope(owner));
      && after == Replaced(c, oid, c.docs[oid] + data)
      && r == Ok(Some(ConvertObjectIdToString(c.docs[oid] + data)))
      && FetchById(svc, after, rx, id, ignoreError, false, OwnerScope(owner))
         == (if ignoreError then Ok(None) else Err(Raised(NotFound(svc, Render(id)))))
  {
    var oid := ObjectIdOf(id).value;
    var doc := c.docs[oid];
    var data := SoftDeleteData(now, user);
    UpdateOfVisible(svc, c, rx, id, data, None, true, ignoreError, false, owner);
    SoftDeleteModifies(svc, c, rx, doc, now, user, ignoreError);
    WriteThenFetchStored(svc, c, rx, id, data, ignoreError);
    StampedHidden(svc, c, rx, id, data, ignoreError, owner);
  }

  /** The soft-delete stamp modifies a record that is not deleted, so the checks pass. */
  lemma SoftDeleteModifies(svc: string, c: Collection, rx: Regex, doc: Document, now: int, user: Value, ignoreError: bool)
    requires FieldEquals(doc, "deleted_at", Null)
    ensures Modified(ConvertObjectIdToString(doc), SoftDeleteData(now, user))
    ensures UpdateChecks(svc, c, rx, ConvertObjectIdToString(doc), SoftDeleteData(now, user), None, true, ignoreError)
            == None
  {
    var item := ConvertObjectIdToString(doc);
    assert Get(item, "deleted_at") == Null;
    assert !PyEq(Get(item, "deleted_at"), SoftDeleteData(now, user)["deleted_at"]);
  }

  /** A record merged with data that sets `deleted_at` to something other than None is no longer found without deleted records. */
  lemma StampedHidden(svc: string, c: Collection, rx: Regex, id: Value, data: Document, ignoreError: bool,
                      owner: Option<(string, string)>)
    requires Valid(c)
    requires owner.Some? ==> ScopeField(owner.value.0)
    requires ObjectIdOf(id).Ok? && ObjectIdOf(id).value in c.docs
    requires "deleted_at" in data && data["deleted_at"] != Null && !("_id" in data && data["_id"] != ObjectIdOf(id).value)
    ensures var oid := ObjectIdOf(id).value;
      FetchById(svc, Replaced(c, oid, c.docs[oid] + data), rx, id, ignoreError, false, OwnerScope(owner))
      == (if ignoreError then Ok(None) else Err(Raised(NotFound(svc, Render(id)))))
  {
    var oid := ObjectIdOf(id).value;
    ReplacedValid(c, oid, c.docs[oid] + data);
    FetchByIdScoped(svc, Replaced(c, oid, c.docs[oid] + data), rx, id, ignoreError, false, owner);
  }

  /** The filter `{_id: oid}` is accepted, escapes to itself and selects a document exactly when it carries that `_id`. */
  lemma IdFilter(doc: Document, oid: Value, rx: Regex)
    requires oid.Oid?
    ensures Accepted(map["_id" := oid]) && EscapeDocument(map["_id" := oid]) == map["_id" := oid]
    ensures Matches(doc, map["_id" := oid], rx) <==> FieldEquals(doc, "_id", oid)
  {
    assert forall k :: k in map["_id" := oid] ==> k == "_id";
    assert Condition(doc, "_id", oid, rx) <==> FieldEquals(doc, "_id", oid);
  }

  /** The unscoped delete of `hard_delete_by_id` removes the record under a well-formed id whenever there is one. */
  lemma DeleteStored(c: Collection, rx: Regex, id: Value)
    requires Valid(c) && ObjectIdOf(id).Ok?
    ensures var oid := ObjectIdOf(id).value;
      DeleteByIdOutcome(c, rx, id, map[]) == if oid in c.docs then (Removed(c, oid), Ok(true)) else (c, Ok(false))
    ensures Valid(Removed(c, ObjectIdOf(id).value))
  {
    var oid := ObjectIdOf(id).value;
    assert map[]["_id" := oid] == map["_id" := oid];
    if oid in c.docs {
      IdFilter(c.docs[oid], oid, rx);
    } else {
      IdFilter(map[], oid, rx);
    }
    RemovedValid(c, oid);
  }

  /**
   * `hard_delete_by_id`: a visible record is removed. With errors ignored
   * the scoped lookup no longer guards the delete, so a deleted or foreign
   * record is removed too; a missing record is NotFound even then. Nothing
   * else is ever removed.
   */
  lemma HardDeleteScope(svc: string, c: Collection, rx: Regex, id: Value, ignoreError: bool, includeDeleted: bool,
                        owner: Option<(string, string)>)
    requires Valid(c)
    requires owner.Some? ==> ScopeField(owner.value.0)
    ensures var (after, r) := HardDeleteResult(svc, c, rx, id, ignoreError, includeDeleted, OwnerScope(owner));
      && Valid(after)
      && (ObjectIdOf(id).Err? ==> after == c && r == Err(ObjectIdOf(id).error))
      && (ObjectIdOf(id).Ok? ==>
            var oid := ObjectIdOf(id).value;
            if oid in c.docs && (ignoreError || Visible(c.docs[oid], includeDeleted, owner)) then
              after == Removed(c, oid) && r == Ok(true)
            else after == c && r == Err(Raised(NotFound(svc, Render(id)))))
  {
    FetchByIdScoped(svc, c, rx, id, ignoreError, includeDeleted, owner);
    if ObjectIdOf(id).Ok? {
      DeleteStored(c, rx, id);
    }
  }

  // ---------------------------------------------------------------- lemmas: save paths

  /**
   * `save` of the service stores the data under the generated id and
   * returns the stored record with its `_id` as a string; data that is
   * already marked deleted is stored all the same but the re-fetch, which
   * leaves deleted records out, raises NotFound.
   */
  lemma SaveThenFetch(svc: string, c: Collection, rx: Regex, data: Document, h: string)
    requires Valid(c) && "_id" !in data && IsCanonicalHex(h) && Oid(h) !in c.docs
    ensures var doc := Stamped(data, Oid(h));
      var (after, r) := SaveResult(svc, c, rx, data, h);
      && Valid(after)
      && after == Inserted(c, Oid(h), doc)
      && (FieldEquals(data, "deleted_at", Null) ==> r == Ok(Some(ConvertObjectIdToString(doc))))
      && (!FieldEquals(data, "deleted_at", Null) ==> r == Err(Raised(NotFound(svc, h))))
  {
    var doc := Stamped(data, Oid(h));
    ObjectIdRoundTrip(h);
    InsertedValid(c, Oid(h), doc);
    FetchByIdScoped(svc, Inserted(c, Oid(h), doc), rx, Str(h), false, false, None);
  }

  /**
   * The re-fetch loop of `save_many` on success: one result per id, in the
   * order of the ids, each what `get_by_id` returns for it.
   */
  lemma {:induction false} FetchFromOk(svc: string, c: Collection, rx: Regex, ids: seq<string>, i: nat,
                                       acc: seq<Option<Document>>)
    requires i <= |ids|
    ensures var r := FetchFrom(svc, c, rx, ids, i, acc);
      r.Ok? ==>
        && |r.value| == |acc| + |ids| - i && r.value[..|acc|] == acc
        && forall j :: i <= j < |ids| ==>
             FetchById(svc, c, rx, Str(ids[j]), false, false, None) == Ok(r.value[|acc| + j - i])
    decreases |ids| - i
  {
    if i < |ids| {
      var item := FetchById(svc, c, rx, Str(ids[i]), false, false, None);
      if item.Ok? {
        var acc' := acc + [item.value];
        FetchFromOk(svc, c, rx, ids, i + 1, acc');
        var r := FetchFrom(svc, c, rx, ids, i + 1, acc');
        if r.Ok? {
          assert r.value[..|acc'|][..|acc|] == acc;
          assert r.value[|acc|] == item.value;
          forall j | i <= j < |ids|
            ensures FetchById(svc, c, rx, Str(ids[j]), false, false, None) == Ok(r.value[|acc| + j - i])
          {
            if j > i {
              assert |acc'| + j - (i + 1) == |acc| + j - i;
            }
          }
        }
      }
    }
  }

  /** The re-fetch loop of `save_many` on failure: the error of the first id whose lookup fails. */
  lemma {:induction false} FetchFromErr(svc: string, c: Collection, rx: Regex, ids: seq<string>, i: nat,
                                        acc: seq<Option<Document>>)
    requires i <= |ids|
    ensures var r := FetchFrom(svc, c, rx, ids, i, acc);
      r.Err? ==>
        exists j :: i <= j < |ids| && FetchById(svc, c, rx, Str(ids[j]), false, false, None) == Err(r.error)
          && forall l :: i <= l < j ==> FetchById(svc, c, rx, Str(ids[l]), false, false, None).Ok?
    decreases |ids| - i
  {
    if i < |ids| {
      var item := FetchById(svc, c, rx, Str(ids[i]), false, false, None);
      if item.Ok? {
        var acc' := acc + [item.value];
        FetchFromErr(svc, c, rx, ids, i + 1, acc');
        var r := FetchFrom(svc, c, rx, ids, i + 1, acc');
        if r.Err? {
          var j :| i + 1 <= j < |ids| && FetchById(svc, c, rx, Str(ids[j]), false, false, None) == Err(r.error)
            && forall l :: i + 1 <= l < j ==> FetchById(svc, c, rx, Str(ids[l]), false, false, None).Ok?;
          assert forall l :: i <= l < j ==> FetchById(svc, c, rx, Str(ids[l]), false, false, None).Ok?;
        }
      }
    }
  }

  /** `save_many` of the service returns, in order, what `get_by_id` returns for each id the adapter inserted. */
  lemma SaveManyRefetchesInOrder(svc: string, c: Collection, rx: Regex, data: seq<Document>, newIds: seq<string>)
    requires |newIds| == |data|
    ensures var (after, saved) := SaveManyOutcome(c, data, newIds);
      var r := SaveManyResult(svc, c, rx, data, newIds).1;
      && SaveManyResult(svc, c, rx, data, newIds).0 == after
      && (saved.Err? ==> r == Err(saved.error))
      && (saved.Ok? && r.Ok? ==>
            |r.value| == |saved.value|
            && forall j :: 0 <= j < |saved.value| ==>
                 FetchById(svc, after, rx, Str(saved.value[j]), false, false, None) == Ok(r.value[j]))
  {
    var (after, saved) := SaveManyOutcome(c, data, newIds);
    if saved.Ok? {
      FetchFromOk(svc, after, rx, saved.value, 0, []);
    }
  }

  /**
   * A `save_unique` the adapter refuses because a record already holds
   * the unique value: Conflict naming the value, or, with errors ignored,
   * the TypeError of looking up the id `False`. Nothing is stored.
   */
  lemma SaveUniqueRefused(svc: string, c: Collection, rx: Regex, data: Document, f: string, ignoreError: bool,
                          newId: string)
    requires f in data && !IsOperator(f)
    requires Select(c, map[f := data[f]], rx) != []
    ensures SaveUniqueResult(svc, c, rx, data, OneField(f), ignoreError, newId)
            == (c, if ignoreError then Err(TypeError(NotAnId)) else Err(Raised(Conflict(svc, Render(data[f])))))
  {
    assert UniqueFilter(data, OneField(f)) == map[f := data[f]];
  }

  /**
   * A `save_unique` the adapter accepts, on data without an `_id`: it acts
   * as `save` does, storing the data under the generated id and returning
   * the stored record re-fetched (NotFound if the data is marked deleted),
   * whether or not errors are ignored.
   */
  lemma SaveUniqueAccepted(svc: string, c: Collection, rx: Regex, data: Document, unique: UniqueField,
                           ignoreError: bool, h: string)
    requires Valid(c) && "_id" !in data && IsCanonicalHex(h) && Oid(h) !in c.docs
    requires PlainNames(unique) && (unique.OneField? ==> unique.name in data)
    requires Select(c, UniqueFilter(data, unique), rx) == []
    ensures SaveUniqueResult(svc, c, rx, data, unique, ignoreError, h) == SaveResult(svc, c, rx, data, h)
    ensures var doc := Stamped(data, Oid(h));
      var (after, r) := SaveUniqueResult(svc, c, rx, data, unique, ignoreError, h);
      && Valid(after)
      && after == Inserted(c, Oid(h), doc)
      && (FieldEquals(data, "deleted_at", Null) ==> r == Ok(Some(ConvertObjectIdToString(doc))))
      && (!FieldEquals(data, "deleted_at", Null) ==> r == Err(Raised(NotFound(svc, h))))
  {
    var after := Inserted(c, Oid(h), Stamped(data, Oid(h)));
    UniqueProbeFree(c, rx, data, unique, h);
    assert |h| == 24;
    assert SaveUniqueFollowUp(svc, after, rx, data, unique, ignoreError, Ok(Some(h)))
           == FetchById(svc, after, rx, Str(h), false, false, None);
    SaveThenFetch(svc, c, rx, data, h);
  }

  /** The adapter's `save_unique` with a free unique value on data without an `_id`: stored under the new id. */
  lemma UniqueProbeFree(c: Collection, rx: Regex, data: Document, unique: UniqueField, h: string)
    requires "_id" !in data && Oid(h) !in c.docs
    requires PlainNames(unique) && (unique.OneField? ==> unique.name in data)
    requires Select(c, UniqueFilter(data, unique), rx) == []
    ensures SaveUniqueOutcome(c, rx, data, unique, h) == (Inserted(c, Oid(h), Stamped(data, Oid(h))), Ok(Some(h)))
  {
    assert Accepted(UniqueFilter(data, unique));
  }

  /**
   * Data whose own `_id` is the empty text and whose unique field is free:
   * the record is stored, yet `not item` holds for the empty id, so the
   * caller gets Conflict naming the unique value.
   */
  lemma SaveUniqueEmptyIdConflict(svc: string, c: Collection, rx: Regex, data: Document, f: string, newId: string)
    requires "_id" in data && data["_id"] == Str("") && Str("") !in c.docs
    requires f in data && !IsOperator(f)
    requires Select(c, map[f := data[f]], rx) == []
    ensures SaveUniqueResult(svc, c, rx, data, OneField(f), false, newId)
            == (Inserted(c, Str(""), data), Err(Raised(Conflict(svc, Render(data[f])))))
  {
    assert UniqueFilter(data, OneField(f)) == map[f := data[f]];
    assert Stamped(data, Str("")) == data;
  }

  // ---------------------------------------------------------------- lemmas: _check_modified

  /**
   * What counts as a modification: an update of audit fields only, or one
   * that repeats the stored values, is not one; a new field with a value
   * other than None is one.
   */
  lemma ModifiedSpec(oldData: Document, newData: Document)
    ensures (forall k :: k in newData ==> IsAuditField(k)) ==> !Modified(oldData, newData)
    ensures (forall k :: k in newData && !IsAuditField(k) ==> k in oldData && oldData[k] == newData[k])
            ==> !Modified(oldData, newData)
    ensures (exists k :: k in newData && !IsAuditField(k) && k !in oldData && newData[k] != Null)
            ==> Modified(oldData, newData)
  {
    forall k | k in newData && k in oldData && oldData[k] == newData[k] {
      PyEqReflexive(newData[k]);
    }
  }

  // ---------------------------------------------------------------- lemmas: get_all

  /** The listing filter keeps the scope's conditions, escaped and coerced as the rest of the query. */
  lemma ScopedListFilter(query: Document, search: Option<string>, searchIn: Option<seq<string>>, includeDeleted: bool,
                         owner: Option<(string, string)>)
    requires owner.Some? ==> ScopeField(owner.value.0) && owner.value.0 !in ReservedKeys
    ensures var lf := ListFilter(Scoped(query, includeDeleted, OwnerScope(owner)), search, searchIn);
      lf.Ok? ==>
        && (!includeDeleted ==> "deleted_at" in lf.value && lf.value["deleted_at"] == Null)
        && (owner.Some? ==>
              owner.value.0 in lf.value && lf.value[owner.value.0] == ConvertBools(Str(Escape(owner.value.1))))
  {
    var scoped := Scoped(query, includeDeleted, OwnerScope(owner));
    if !includeDeleted {
      assert "deleted_at" in scoped && scoped["deleted_at"] == Null;
    }
    if owner.Some? {
      assert owner.value.0 in scoped && scoped[owner.value.0] == Str(owner.value.1);
    }
  }

  /** A listed document satisfies the scope's conditions, which its `_id` conversion leaves alone. */
  lemma ListedDocument(c: Collection, filter: Document, rx: Regex, keys: seq<Value>, i: nat, includeDeleted: bool,
                       owner: Option<(string, string)>)
    requires forall k :: k in keys ==> k in c.docs && Matches(c.docs[k], filter, rx)
    requires i < |keys|
    requires !includeDeleted ==> "deleted_at" in filter && filter["deleted_at"] == Null
    requires owner.Some? ==>
      ScopeField(owner.value.0) && owner.value.0 in filter
      && filter[owner.value.0] == ConvertBools(Str(Escape(owner.value.1)))
    ensures var d := Converted(c, keys)[i];
      && (includeDeleted || FieldEquals(d, "deleted_at", Null))
      && (owner.Some? ==> FieldEquals(d, owner.value.0, ConvertBools(Str(Escape(owner.value.1)))))
  {
    assert keys[i] in keys;
    var doc := c.docs[keys[i]];
    assert Converted(c, keys)[i] == ConvertObjectIdToString(doc);
    if !includeDeleted {
      assert Condition(doc, "deleted_at", Null, rx);
    }
    if owner.Some? {
      var (f, u) := owner.value;
      assert Condition(doc, f, filter[f], rx);
    }
  }

  /**
   * `get_all` of the service lists no soft-deleted record unless asked to,
   * and, when scoped, only records whose owner field holds the caller's id
   * (escaped, then coerced by `convert_bools`, as the whole query is).
   */
  lemma ListingScoped(c: Collection, rx: Regex, query: Document, search: Option<string>, searchIn: Option<seq<string>>,
                      page: nat, limit: nat, sortBy: Option<string>, orderBy: Option<string>, includeDeleted: bool,
                      owner: Option<(string, string)>)
    requires owner.Some? ==> ScopeField(owner.value.0) && owner.value.0 !in ReservedKeys
    ensures var r := GetAllOutcome(c, rx, Scoped(query, includeDeleted, OwnerScope(owner)), search, searchIn,
                                   page, limit, sortBy, orderBy);
      r.Ok? ==> forall i :: 0 <= i < |r.value.results| ==>
        && (includeDeleted || FieldEquals(r.value.results[i], "deleted_at", Null))
        && (owner.Some? ==>
              FieldEquals(r.value.results[i], owner.value.0, ConvertBools(Str(Escape(owner.value.1)))))
  {
    var lf := ListFilter(Scoped(query, includeDeleted, OwnerScope(owner)), search, searchIn);
    if lf.Ok? && Accepted(lf.value) {
      ScopedListFilter(query, search, searchIn, includeDeleted, owner);
      var keys := ListedKeys(c, lf.value, rx, sortBy, orderBy, page, limit);
      forall i | 0 <= i < |keys| {
        ListedDocument(c, lf.value, rx, keys, i, includeDeleted, owner);
      }
    }
  }
}
