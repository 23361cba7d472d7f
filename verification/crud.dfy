/**
 * `BaseCRUD` (app/db/base.py): the adapter between the services and one
 * collection of the document store. The collection handle is an object
 * whose stored documents the write operations change in place; ids the
 * driver generates for new documents are passed in as parameters.
 */
module Crud {
  import opened Basics
  import opened Values
  import opened Errors
  import opened Store
  import opened Query

  /** The `unique_field` argument of `save_unique`: one name, a list of names, or a value of another type. */
  datatype UniqueField = OneField(name: string) | FieldSet(names: seq<string>) | OtherType

  /** The `field_name` argument of `delete_field_by_id`: one name or a list of names. */
  datatype FieldNameArg = OneName(name: string) | NameList(names: seq<string>)

  /** A single name is treated as a one-element list. */
  function NamesOf(f: FieldNameArg): (r: seq<string>)
    ensures f.OneName? ==> r == [f.name]
    ensures f.NameList? ==> r == f.names
  {
    match f
    case OneName(n) => [n]
    case NameList(ns) => ns
  }

  /** What `get_all` returns. */
  datatype Listing = Listing(results: seq<Document>, totalItems: nat, totalPage: nat, recordsPerPage: nat)

  const DuplicateKey := "E11000 duplicate key error"
  const ImmutableId := "Performing an update on the path '_id' would modify the immutable field '_id'"
  const RejectedFilter := "the store rejected the query filter"
  const EmptyInsert := "documents must be a non-empty list"
  const UniqueFieldType := "The type of unique_field must be list or str"

  /** The key a new document is stored under: its own `_id`, or the id the driver generated. */
  function NewKey(data: Document, newId: string): Value
  {
    if "_id" in data then data["_id"] else Oid(newId)
  }

  /** The keys of a batch of new documents, in order. */
  function NewKeys(data: seq<Document>, newIds: seq<string>): (r: seq<Value>)
    requires |newIds| == |data|
    ensures |r| == |data| && forall i :: 0 <= i < |data| ==> r[i] == NewKey(data[i], newIds[i])
  {
    seq(|data|, i requires 0 <= i < |data| => NewKey(data[i], newIds[i]))
  }

  /** The ids of stored documents as `str()` gives them, in order. */
  function RenderAll(keys: seq<Value>): (r: seq<string>)
    ensures |r| == |keys| && forall i :: 0 <= i < |keys| ==> r[i] == Render(keys[i])
  {
    seq(|keys|, i requires 0 <= i < |keys| => Render(keys[i]))
  }

  lemma RenderAllSnoc(keys: seq<Value>, i: nat)
    requires i < |keys|
    ensures RenderAll(keys[..i + 1]) == RenderAll(keys[..i]) + [Render(keys[i])]
  {
  }

  /** The document as stored: the data with its `_id`. */
  function Stamped(data: Document, key: Value): Document
  {
    data["_id" := key]
  }

  /** An `_id` the caller supplies as an ObjectId is one bson could have made. */
  predicate SuppliedIdOk(data: Document)
  {
    "_id" in data && data["_id"].Oid? ==> IsCanonicalHex(data["_id"].hex)
  }

  /** The stored document under `key` exists and satisfies `filter`. */
  predicate Targets(c: Collection, key: Value, filter: Document, rx: Regex)
  {
    key in c.docs && Matches(c.docs[key], filter, rx)
  }

  /** Some field of `data` is missing from `doc` or holds another value there. */
  predicate Changes(doc: Document, data: Document)
  {
    exists k :: k in data && (k !in doc || doc[k] != data[k])
  }

  /** Some of `names` is a field of `doc`. */
  predicate HasAnyField(doc: Document, names: seq<string>)
  {
    exists i :: 0 <= i < |names| && names[i] in doc
  }

  /** `doc` without the fields `names`. */
  function WithoutFields(doc: Document, names: seq<string>): Document
  {
    doc - (set i | 0 <= i < |names| :: names[i])
  }

  /** The filter of the uniqueness probe in `save_unique`. */
  function UniqueFilter(data: Document, unique: UniqueField): Document
  {
    match unique
    case OneField(n) => if n in data then map[n := data[n]] else map[]
    case FieldSet(names) => map k | k in data && k in names :: data[k]
    case OtherType => map[]
  }

  /** The stored documents under `keys`, each with its `_id` turned into a string. */
  function Converted(c: Collection, keys: seq<Value>): (r: seq<Document>)
    requires forall k :: k in keys ==> k in c.docs
    ensures |r| == |keys|
    ensures forall i :: 0 <= i < |keys| ==> r[i] == ConvertObjectIdToString(c.docs[keys[i]])
  {
    seq(|keys|, i requires 0 <= i < |keys| => ConvertObjectIdToString(c.docs[keys[i]]))
  }

  /** `sort([(field, direction)])` applied when a sort field is given; otherwise the keys as they are. */
  function SortedIfAsked(docs: map<Value, Document>, field: Option<string>, descending: bool, s: seq<Value>): (r: seq<Value>)
    ensures multiset(r) == multiset(s)
    ensures field.Some? ==> SortedBy(docs, field.value, descending, r)
    ensures field.None? ==> r == s
  {
    match field
    case None => s
    case Some(f) =>
      SortKeysCorrect(docs, f, descending, s);
      SortKeys(docs, f, descending, s)
  }

  /** The keys `find` yields for `get_all`: selected, sorted when a sort field is given, then windowed. */
  function ListedKeys(c: Collection, filter: Document, rx: Regex, sortBy: Option<string>, orderBy: Option<string>,
                      page: nat, limit: nat): (r: seq<Value>)
    ensures forall k :: k in r ==> k in c.docs && Matches(c.docs[k], filter, rx)
    ensures limit > 0 ==> |r| <= limit
  {
    var selected := Select(c, filter, rx);
    var sorted := SortedIfAsked(c.docs, SortField(sortBy), SortDirection(orderBy) == -1, selected);
    assert forall k :: k in sorted ==> k in selected by {
      forall k | k in sorted ensures k in selected {
        assert k in multiset(sorted);
      }
    }
    Window(sorted, SkipCount(page, limit), limit)
  }

  // ---------------------------------------------------------------- results as functions of the collection

  /** What `get_by_id` returns from a collection in state `c`. */
  function GetByIdOutcome(c: Collection, rx: Regex, id: Value, query: Document): Outcome<Option<Document>>
  {
    match ObjectIdOf(id)
    case Err(e) => Err(e)
    case Ok(oid) =>
      var filter := EscapeDocument(query["_id" := oid]);
      if !Accepted(filter) then Err(StoreError(RejectedFilter))
      else if Targets(c, oid, filter, rx) then Ok(Some(ConvertObjectIdToString(c.docs[oid])))
      else Ok(None)
  }

  /** What `get_by_field` returns from a collection in state `c`. */
  function GetByFieldOutcome(c: Collection, rx: Regex, data: Value, fieldName: string, query: Document)
    : Outcome<Option<Document>>
  {
    var filter := EscapeDocument(query[fieldName := data]);
    var selected := Select(c, filter, rx);
    if !Accepted(filter) then Err(StoreError(RejectedFilter))
    else if selected == [] then Ok(None)
    else
      assert selected[0] in selected;
      Ok(Some(ConvertObjectIdToString(c.docs[selected[0]])))
  }

  /** What `get_all` returns from a collection in state `c`. */
  function GetAllOutcome(c: Collection, rx: Regex, query: Document, search: Option<string>, searchIn: Option<seq<string>>,
                         page: nat, limit: nat, sortBy: Option<string>, orderBy: Option<string>): Outcome<Listing>
  {
    match ListFilter(query, search, searchIn)
    case Err(e) => Err(e)
    case Ok(filter) =>
      if !Accepted(filter) then Err(StoreError(RejectedFilter))
      else
        var results := Converted(c, ListedKeys(c, filter, rx, sortBy, orderBy, page, limit));
        var total := Count(c, filter, rx);
        Ok(Listing(results, total, TotalPages(total, limit), |results|))
  }

  /** The collection and the result after `save(data)`. */
  function SaveOutcome(c: Collection, data: Document, newId: string): (Collection, Outcome<string>)
  {
    var key := NewKey(data, newId);
    if key in c.docs then (c, Err(StoreError(DuplicateKey)))
    else (Inserted(c, key, Stamped(data, key)), Ok(Render(key)))
  }

  /** The collection and the result after `save_unique(data, unique_field)`; `None` stands for False. */
  function SaveUniqueOutcome(c: Collection, rx: Regex, data: Document, unique: UniqueField, newId: string)
    : (Collection, Outcome<Option<string>>)
  {
    var probe := UniqueFilter(data, unique);
    if unique.OtherType? then (c, Err(ValueError(UniqueFieldType)))
    else if unique.OneField? && unique.name !in data then (c, Err(KeyError(unique.name)))
    else if !Accepted(probe) then (c, Err(StoreError(RejectedFilter)))
    else if Select(c, probe, rx) != [] then (c, Ok(None))
    else
      var (after, saved) := SaveOutcome(c, data, newId);
      if saved.Err? then (after, Err(saved.error)) else (after, Ok(Some(saved.value)))
  }

  /** The collection and the result after `update_by_id(_id, data, query)`. */
  function UpdateByIdOutcome(c: Collection, rx: Regex, id: Value, data: Document, query: Document)
    : (Collection, Outcome<bool>)
  {
    match ObjectIdOf(id)
    case Err(e) => (c, Err(e))
    case Ok(oid) =>
      var filter := query["_id" := oid];
      if !Accepted(filter) then (c, Err(StoreError(RejectedFilter)))
      else if !Targets(c, oid, filter, rx) then (c, Ok(false))
      else if "_id" in data && data["_id"] != oid then (c, Err(StoreError(ImmutableId)))
      else (Replaced(c, oid, c.docs[oid] + data), Ok(Changes(c.docs[oid], data)))
  }

  /** The collection and the result after `delete_by_id(_id, query)`. */
  function DeleteByIdOutcome(c: Collection, rx: Regex, id: Value, query: Document): (Collection, Outcome<bool>)
  {
    match ObjectIdOf(id)
    case Err(e) => (c, Err(e))
    case Ok(oid) =>
      var filter := query["_id" := oid];
      if !Accepted(filter) then (c, Err(StoreError(RejectedFilter)))
      else if Targets(c, oid, filter, rx) then (Removed(c, oid), Ok(true))
      else (c, Ok(false))
  }

  /**
   * `after` is `before` with the first `n` documents of a batch inserted:
   * their keys appended to the insertion order, each stored with its `_id`,
   * and every document stored before left as it was.
   */
  ghost predicate InsertedPrefix(before: Collection, after: Collection, keys: seq<Value>, data: seq<Document>, n: nat)
    requires |keys| == |data|
  {
    && n <= |keys|
    && after.order == before.order + keys[..n]
    && (forall k :: k in after.docs <==> k in before.docs || k in keys[..n])
    && (forall k :: k in before.docs ==> after.docs[k] == before.docs[k])
    && (forall j :: 0 <= j < n ==> after.docs[keys[j]] == Stamped(data[j], keys[j]))
  }

  /** Inserting the next document of the batch, under a key not yet stored, extends the prefix by one. */
  lemma InsertedPrefixStep(before: Collection, after: Collection, keys: seq<Value>, data: seq<Document>, n: nat)
    requires |keys| == |data| && n < |keys|
    requires InsertedPrefix(before, after, keys, data, n) && keys[n] !in after.docs
    ensures InsertedPrefix(before, Inserted(after, keys[n], Stamped(data[n], keys[n])), keys, data, n + 1)
  {
    assert keys[..n + 1] == keys[..n] + [keys[n]];
    var next := Inserted(after, keys[n], Stamped(data[n], keys[n]));
    forall j | 0 <= j < n + 1 ensures next.docs[keys[j]] == Stamped(data[j], keys[j]) {
      if j < n {
        assert keys[j] in keys[..n];
      }
    }
  }

  /** The `j`-th key of a batch is already stored or repeats an earlier key of the batch. */
  predicate Clashes(docs: map<Value, Document>, keys: seq<Value>, j: nat)
    requires j < |keys|
  {
    keys[j] in docs || keys[j] in keys[..j]
  }

  /** The position, from `from` on, of the first key of a batch that clashes; `|keys|` when none does. */
  function FirstClash(docs: map<Value, Document>, keys: seq<Value>, from: nat): (r: nat)
    requires from <= |keys|
    ensures from <= r <= |keys|
    ensures forall j :: from <= j < r ==> !Clashes(docs, keys, j)
    ensures r < |keys| ==> Clashes(docs, keys, r)
    decreases |keys| - from
  {
    if from == |keys| then from
    else if Clashes(docs, keys, from) then from
    else FirstClash(docs, keys, from + 1)
  }

  /**
   * `insert_many` from the `i`-th document on, into `c`, with the ids of the
   * earlier ones in `ids`: stops at the first key that is already stored.
   */
  function SaveFrom(c: Collection, data: seq<Document>, newIds: seq<string>, i: nat, ids: seq<string>)
    : (Collection, Outcome<seq<string>>)
    requires |newIds| == |data| && i <= |data|
    decreases |data| - i
  {
    if i == |data| then (c, Ok(ids))
    else
      var key := NewKey(data[i], newIds[i]);
      if key in c.docs then (c, Err(StoreError(DuplicateKey)))
      else SaveFrom(Inserted(c, key, Stamped(data[i], key)), data, newIds, i + 1, ids + [Render(key)])
  }

  /** The collection and the result after `save_many(data)`; an empty list raises TypeError. */
  function SaveManyOutcome(c: Collection, data: seq<Document>, newIds: seq<string>): (Collection, Outcome<seq<string>>)
    requires |newIds| == |data|
  {
    if data == [] then (c, Err(TypeError(EmptyInsert))) else SaveFrom(c, data, newIds, 0, [])
  }

  lemma {:induction false} SaveFromSpec(c0: Collection, c: Collection, data: seq<Document>, newIds: seq<string>,
                                        i: nat, ids: seq<string>)
    requires |newIds| == |data| && i <= |data|
    requires InsertedPrefix(c0, c, NewKeys(data, newIds), data, i)
    requires ids == RenderAll(NewKeys(data, newIds)[..i])
    ensures var (after, r) := SaveFrom(c, data, newIds, i, ids);
      var keys := NewKeys(data, newIds); var n := FirstClash(c0.docs, keys, i);
      && InsertedPrefix(c0, after, keys, data, n)
      && (n == |data| ==> r == Ok(RenderAll(keys)))
      && (n < |data| ==> r == Err(StoreError(DuplicateKey)))
    decreases |data| - i
  {
    var keys := NewKeys(data, newIds);
    if i == |data| {
      assert keys[..|data|] == keys;
    } else {
      var key := keys[i];
      if key !in c.docs {
        InsertedPrefixStep(c0, c, keys, data, i);
        RenderAllSnoc(keys, i);
        SaveFromSpec(c0, Inserted(c, key, Stamped(data[i], key)), data, newIds, i + 1, ids + [Render(key)]);
      }
    }
  }

  /**
   * What `save_many` does: the documents before the first clashing key (one
   * already stored, or repeating an earlier key of the batch) are inserted
   * in order, each under its key with its `_id`, and nothing else changes;
   * the ids of all documents come back when none clashes, and the duplicate
   * key error otherwise.
   */
  lemma SaveManyOutcomeSpec(c: Collection, data: seq<Document>, newIds: seq<string>)
    requires |newIds| == |data| && data != []
    ensures var (after, r) := SaveManyOutcome(c, data, newIds);
      var keys := NewKeys(data, newIds); var n := FirstClash(c.docs, keys, 0);
      && InsertedPrefix(c, after, keys, data, n)
      && (r.Ok? <==> n == |data|)
      && (r.Ok? ==> r.value == RenderAll(keys))
      && (r.Err? ==> r.error == StoreError(DuplicateKey) && Clashes(c.docs, keys, n))
  {
    var keys := NewKeys(data, newIds);
    assert keys[..0] == [];
    SaveFromSpec(c, c, data, newIds, 0, []);
  }

  class BaseCrud {
    const collectionName: string
    /** How the store evaluates `$regex` conditions. */
    const regex: Regex
    /** The stored documents' keys in insertion order. */
    var order: seq<Value>
    /** The stored documents by `_id`. */
    var docs: map<Value, Document>

    function State(): Collection
      reads this
    {
      Collection(order, docs)
    }

    ghost predicate Valid()
      reads this
    {
      Store.Valid(State())
    }

    /** A handle on the collection `collectionName`, currently holding `contents`. */
    constructor (collectionName: string, contents: Collection, regex: Regex)
      requires Store.Valid(contents)
      ensures Valid() && State() == contents
      ensures this.collectionName == collectionName && this.regex == regex
    {
      this.collectionName := collectionName;
      this.regex := regex;
      order := contents.order;
      docs := contents.docs;
    }

    /** `count_documents`: how many stored documents the filter selects. */
    method CountDocuments(query: Document) returns (r: Outcome<nat>)
      requires Valid()
      ensures r.Ok? <==> Accepted(query)
      ensures r.Ok? ==> r.value == |Select(State(), query, regex)|
      ensures r.Ok? && query == map[] ==> r.value == |order|
      ensures !Accepted(query) ==> r == Err(StoreError(RejectedFilter))
    {
      if !Accepted(query) {
        return Err(StoreError(RejectedFilter));
      }
      r := Ok(Count(State(), query, regex));
      if query == map[] {
        SelectAll(State(), regex);
      }
    }

    /** `save`: inserts one document and returns its id as a string. */
    method Save(data: Document, newId: string) returns (r: Outcome<string>)
      requires Valid() && IsCanonicalHex(newId) && Oid(newId) !in docs && SuppliedIdOk(data)
      modifies this
      ensures Valid()
      ensures var key := NewKey(data, newId);
        && (r.Ok? <==> key !in old(docs))
        && (r.Ok? ==> r.value == Render(key) && State() == Inserted(old(State()), key, Stamped(data, key)))
        && (r.Err? ==> r == Err(StoreError(DuplicateKey)) && State() == old(State()))
      ensures (State(), r) == SaveOutcome(old(State()), data, newId)
    {
      var key := NewKey(data, newId);
      if key in docs {
        return Err(StoreError(DuplicateKey));
      }
      Insert(key, Stamped(data, key));
      r := Ok(Render(key));
    }

    /** The store's insert of one document under a key no stored document has. */
    method Insert(key: Value, doc: Document)
      requires Valid() && key !in docs
      requires "_id" in doc && doc["_id"] == key && (key.Oid? ==> IsCanonicalHex(key.hex))
      modifies this
      ensures Valid() && State() == Inserted(old(State()), key, doc)
    {
      InsertedValid(State(), key, doc);
      order := order + [key];
      docs := docs[key := doc];
    }

    /**
     * `save_many`: inserts the documents in order and returns their ids as
     * strings in the same order; what that does to the collection is
     * `SaveManyOutcome`, whose meaning `SaveManyOutcomeSpec` states.
     */
    method SaveMany(data: seq<Document>, newIds: seq<string>) returns (r: Outcome<seq<string>>)
      requires Valid() && |newIds| == |data|
      requires forall i :: 0 <= i < |data| ==> IsCanonicalHex(newIds[i]) && SuppliedIdOk(data[i])
      modifies this
      ensures Valid()
      ensures (State(), r) == SaveManyOutcome(old(State()), data, newIds)
    {
      if data == [] {
        return Err(TypeError(EmptyInsert));
      }
      ghost var goal := SaveFrom(State(), data, newIds, 0, []);
      var ids: seq<string> := [];
      for i := 0 to |data|
        invariant Valid()
        invariant SaveFrom(State(), data, newIds, i, ids) == goal
      {
        var key := NewKey(data[i], newIds[i]);
        if key in docs {
          return Err(StoreError(DuplicateKey));
        }
        Insert(key, Stamped(data[i], key));
        ids := ids + [Render(key)];
      }
      r := Ok(ids);
    }

    /**
     * `save_unique`: inserts `data` unless a stored document already has the
     * same values in the unique fields, and returns the new id (`Some`) or
     * False (`None`).
     */
    method SaveUnique(data: Document, unique: UniqueField, newId: string) returns (r: Outcome<Option<string>>)
      requires Valid() && IsCanonicalHex(newId) && Oid(newId) !in docs && SuppliedIdOk(data)
      modifies this
      ensures Valid()
      ensures unique.OtherType? ==> r == Err(ValueError(UniqueFieldType)) && State() == old(State())
      ensures unique.OneField? && unique.name !in data ==> r == Err(KeyError(unique.name)) && State() == old(State())
      ensures var probe := UniqueFilter(data, unique); var key := NewKey(data, newId);
        && (r.Ok? && r.value.None? ==> State() == old(State()) && |Select(old(State()), probe, regex)| > 0)
        && (r.Ok? && r.value.Some? ==>
              |Select(old(State()), probe, regex)| == 0
              && r.value.value == Render(key) && State() == Inserted(old(State()), key, Stamped(data, key)))
        && (r.Err? ==> State() == old(State()))
        && ((!unique.OtherType? && !(unique.OneField? && unique.name !in data) && Accepted(probe)) ==>
              (r == Ok(None) <==> |Select(old(State()), probe, regex)| > 0))
      ensures unique.FieldSet? && UniqueFilter(data, unique) == map[] && old(order) != [] ==> r == Ok(None)
      ensures (State(), r) == SaveUniqueOutcome(old(State()), regex, data, unique, newId)
    {
      var probe := UniqueFilter(data, unique);
      var taken: bool;
      match unique {
        case FieldSet(names) =>
          var count := CountDocuments(probe);
          if count.Err? {
            return Err(count.error);
          }
          taken := count.value > 0;
        case OneField(n) =>
          if n !in data {
            return Err(KeyError(n));
          }
          if !Accepted(probe) {
            return Err(StoreError(RejectedFilter));
          }
          taken := FindOne(State(), probe, regex).Some?;
        case OtherType =>
          return Err(ValueError(UniqueFieldType));
      }
      if unique.FieldSet? && probe == map[] && order != [] {
        SelectAll(State(), regex);
      }
      if taken {
        return Ok(None);
      }
      var saved := Save(data, newId);
      if saved.Err? {
        return Err(saved.error);
      }
      r := Ok(Some(saved.value));
    }

    /**
     * `update_by_id`: sets the fields of `data` on the document with this id
     * that also satisfies `query`; true iff a document was found and a value
     * actually changed.
     */
    method UpdateById(id: Value, data: Document, query: Document) returns (r: Outcome<bool>)
      requires Valid()
      modifies this
      ensures Valid()
      ensures (State(), r) == UpdateByIdOutcome(old(State()), regex, id, data, query)
    {
      var parsed := ObjectIdOf(id);
      if parsed.Err? {
        return Err(parsed.error);
      }
      var oid := parsed.value;
      var filter := query["_id" := oid];
      if !Accepted(filter) {
        return Err(StoreError(RejectedFilter));
      }
      var selected := Select(State(), filter, regex);
      SelectById(State(), filter, regex);
      if selected == [] {
        return Ok(false);
      }
      assert selected[0] in selected;
      var key := selected[0];
      var doc := docs[key];
      if "_id" in data && data["_id"] != doc["_id"] {
        return Err(StoreError(ImmutableId));
      }
      r := Ok(Changes(doc, data));
      ReplacedValid(State(), key, doc + data);
      docs := docs[key := doc + data];
    }

    /** `delete_by_id`: removes the document with this id that also satisfies `query`; true iff one was removed. */
    method DeleteById(id: Value, query: Document) returns (r: Outcome<bool>)
      requires Valid()
      modifies this
      ensures Valid()
      ensures (State(), r) == DeleteByIdOutcome(old(State()), regex, id, query)
    {
      var parsed := ObjectIdOf(id);
      if parsed.Err? {
        return Err(parsed.error);
      }
      var oid := parsed.value;
      var filter := query["_id" := oid];
      if !Accepted(filter) {
        return Err(StoreError(RejectedFilter));
      }
      var selected := Select(State(), filter, regex);
      SelectById(State(), filter, regex);
      if selected == [] {
        return Ok(false);
      }
      RemovedValid(State(), oid);
      order := RemoveKey(order, oid);
      docs := docs - {oid};
      r := Ok(true);
    }

    /** `delete_field_by_id`: removes the named fields from the document with this id; true iff one was present. */
    method DeleteFieldById(id: Value, fieldName: FieldNameArg) returns (r: Outcome<bool>)
      requires Valid()
      modifies this
      ensures Valid()
      ensures ObjectIdOf(id).Err? ==> r == Err(ObjectIdOf(id).error) && State() == old(State())
      ensures ObjectIdOf(id).Ok? ==>
        var oid := ObjectIdOf(id).value; var names := NamesOf(fieldName);
        && (oid !in old(docs) ==> r == Ok(false) && State() == old(State()))
        && (oid in old(docs) && "_id" in names ==> r == Err(StoreError(ImmutableId)) && State() == old(State()))
        && (oid in old(docs) && "_id" !in names ==>
              r == Ok(HasAnyField(old(docs)[oid], names))
              && State() == Replaced(old(State()), oid, WithoutFields(old(docs)[oid], names)))
    {
      var parsed := ObjectIdOf(id);
      if parsed.Err? {
        return Err(parsed.error);
      }
      var oid := parsed.value;
      var names := NamesOf(fieldName);
      var filter := map["_id" := oid];
      var selected := Select(State(), filter, regex);
      SelectById(State(), filter, regex);
      if selected == [] {
        return Ok(false);
      }
      assert selected[0] in selected;
      var doc := docs[oid];
      if "_id" in names {
        return Err(StoreError(ImmutableId));
      }
      r := Ok(HasAnyField(doc, names));
      ReplacedValid(State(), oid, WithoutFields(doc, names));
      docs := docs[oid := WithoutFields(doc, names)];
    }

    /**
     * `get_by_id`: the document with this id that also satisfies the escaped
     * `query`, with its `_id` as a string, or None.
     */
    method GetById(id: Value, fields: FieldsLimit, query: Document) returns (r: Outcome<Option<Document>>)
      requires Valid()
      ensures ObjectIdOf(id).Err? ==> r == Err(ObjectIdOf(id).error)
      ensures ObjectIdOf(id).Ok? ==>
        var oid := ObjectIdOf(id).value; var filter := EscapeDocument(query["_id" := oid]);
        && (r.Ok? <==> Accepted(filter))
        && (r.Ok? ==> (r.value.Some? <==> Targets(State(), oid, filter, regex)))
        && (r.Ok? && r.value.Some? ==> r.value.value == ConvertObjectIdToString(docs[oid]))
      ensures r == GetByIdOutcome(State(), regex, id, query)
    {
      var projection := BuildFieldProjection(fields);
      var parsed := ObjectIdOf(id);
      if parsed.Err? {
        return Err(parsed.error);
      }
      var oid := parsed.value;
      var filter := EscapeDocument(query["_id" := oid]);
      if !Accepted(filter) {
        return Err(StoreError(RejectedFilter));
      }
      SelectById(State(), filter, regex);
      var found := FindOne(State(), filter, regex);
      if found.None? {
        return Ok(None);
      }
      r := Ok(Some(ConvertObjectIdToString(found.value)));
    }

    /**
     * `get_by_field`: the first document, in insertion order, whose field
     * `fieldName` holds the escaped `data` and that satisfies the escaped
     * `query`, with its `_id` as a string, or None.
     */
    method GetByField(data: Value, fieldName: string, fields: FieldsLimit, query: Document)
      returns (r: Outcome<Option<Document>>)
      requires Valid()
      ensures var filter := EscapeDocument(query[fieldName := data]); var selected := Select(State(), filter, regex);
        && (r.Ok? <==> Accepted(filter))
        && (r.Ok? ==> (r.value.None? <==> selected == []))
        && (r.Ok? && r.value.Some? ==> selected[0] in docs && r.value.value == ConvertObjectIdToString(docs[selected[0]]))
      ensures r == GetByFieldOutcome(State(), regex, data, fieldName, query)
    {
      var projection := BuildFieldProjection(fields);
      var filter := EscapeDocument(query[fieldName := data]);
      if !Accepted(filter) {
        return Err(StoreError(RejectedFilter));
      }
      var selected := Select(State(), filter, regex);
      if selected == [] {
        return Ok(None);
      }
      assert selected[0] in selected;
      r := Ok(Some(ConvertObjectIdToString(docs[selected[0]])));
    }

    /** Iterates a cursor over `cursor`, turning each document's `_id` into a string. */
    method Collect(cursor: seq<Value>) returns (results: seq<Document>)
      requires forall k :: k in cursor ==> k in docs
      ensures results == Converted(State(), cursor)
    {
      results := [];
      for i := 0 to |cursor|
        invariant results == Converted(State(), cursor[..i])
      {
        assert cursor[i] in cursor;
        results := results + [ConvertObjectIdToString(docs[cursor[i]])];
        assert results == Converted(State(), cursor[..i + 1]);
      }
      assert cursor[..|cursor|] == cursor;
    }

    /**
     * `get_all_by_field`: every document, in insertion order, whose field
     * `fieldName` holds the escaped `data` and that satisfies the escaped
     * `query`, each with its `_id` as a string (never None: the cursor is
     * always truthy).
     */
    method GetAllByField(data: Value, fieldName: string, fields: FieldsLimit, query: Document)
      returns (r: Outcome<seq<Document>>)
      requires Valid()
      ensures var filter := EscapeDocument(query[fieldName := data]); var selected := Select(State(), filter, regex);
        && (r.Ok? <==> Accepted(filter))
        && (r.Ok? ==> r.value == Converted(State(), selected))
    {
      var projection := BuildFieldProjection(fields);
      var filter := EscapeDocument(query[fieldName := data]);
      if !Accepted(filter) {
        return Err(StoreError(RejectedFilter));
      }
      var cursor := Select(State(), filter, regex);
      var results := Collect(cursor);
      r := Ok(results);
    }

    /**
     * `get_all`: one page of the documents the request selects, with the
     * total count of the whole selection and the number of pages.
     */
    method GetAll(query: Document, search: Option<string>, searchIn: Option<seq<string>>, page: nat, limit: nat,
                  fields: FieldsLimit, sortBy: Option<string>, orderBy: Option<string>) returns (r: Outcome<Listing>)
      requires Valid()
      ensures var built := ListFilter(query, search, searchIn);
        && (built.Err? ==> r == Err(built.error))
        && (built.Ok? ==> (r.Ok? <==> Accepted(built.value)))
        && (r.Ok? ==>
              var filter := built.value;
              var keys := ListedKeys(State(), filter, regex, sortBy, orderBy, page, limit);
              && r.value.results == Converted(State(), keys)
              && r.value.recordsPerPage == |r.value.results|
              && (limit > 0 ==> r.value.recordsPerPage <= limit)
              && r.value.totalItems == |Select(State(), filter, regex)|
              && r.value.totalPage == TotalPages(r.value.totalItems, limit))
      ensures r == GetAllOutcome(State(), regex, query, search, searchIn, page, limit, sortBy, orderBy)
    {
      var projection := BuildFieldProjection(fields);
      var built := ListFilter(query, search, searchIn);
      if built.Err? {
        return Err(built.error);
      }
      var filter := built.value;
      if !Accepted(filter) {
        return Err(StoreError(RejectedFilter));
      }
      var cursor := ListedKeys(State(), filter, regex, sortBy, orderBy, page, limit);
      var results := Collect(cursor);
      var recordsPerPage := |results|;
      var total := Count(State(), filter, regex);
      r := Ok(Listing(results, total, TotalPages(total, limit), recordsPerPage));
    }
  }

  /** The empty filter selects every stored document. */
  lemma SelectAll(c: Collection, rx: Regex)
    requires Valid(c)
    ensures |Select(c, map[], rx)| == |c.order|
  {
    var s := Select(c, map[], rx);
    assert forall k :: k in s <==> k in c.order;
    DistinctSameElements(s, c.order);
  }

  /** Two duplicate-free sequences with the same elements have the same length. */
  lemma DistinctSameElements(a: seq<Value>, b: seq<Value>)
    requires Distinct(a) && Distinct(b)
    requires forall k :: k in a <==> k in b
    ensures |a| == |b|
  {
    DistinctCard(a);
    DistinctCard(b);
    assert (set k | k in a) == (set k | k in b);
  }

  lemma {:induction false} DistinctCard(a: seq<Value>)
    requires Distinct(a)
    ensures |set k | k in a| == |a|
  {
    if a != [] {
      DistinctCard(a[1..]);
      assert (set k | k in a) == (set k | k in a[1..]) + {a[0]};
      assert a[0] !in a[1..];
    }
  }

  // ---------------------------------------------------------------- properties across operations

  /**
   * A document saved under a generated id is what `get_by_id` on the string
   * form of that id returns (with no extra query).
   */
  lemma SaveThenGetById(c: Collection, data: Document, h: string, rx: Regex)
    requires Valid(c) && IsCanonicalHex(h) && "_id" !in data && Oid(h) !in c.docs
    ensures var after := Inserted(c, Oid(h), Stamped(data, Oid(h)));
      && ObjectIdOf(Str(h)) == Ok(Oid(h))
      && var filter := EscapeDocument(map["_id" := Oid(h)]);
      && Accepted(filter)
      && Targets(after, Oid(h), filter, rx)
      && FindOne(after, filter, rx) == Some(Stamped(data, Oid(h)))
  {
    ObjectIdRoundTrip(h);
    var key := Oid(h);
    var doc := Stamped(data, key);
    var after := Inserted(c, key, doc);
    InsertedValid(c, key, doc);
    var filter := EscapeDocument(map["_id" := key]);
    assert filter == map["_id" := key];
    assert Matches(doc, filter, rx) by {
      assert Condition(doc, "_id", key, rx);
    }
    SelectById(after, filter, rx);
  }

  /** Removing a key twice is removing it once. */
  lemma {:induction false} RemoveKeyIdempotent(s: seq<Value>, k: Value)
    ensures RemoveKey(RemoveKey(s, k), k) == RemoveKey(s, k)
  {
    if s != [] {
      RemoveKeyIdempotent(s[1..], k);
      if s[0] != k {
        var r := RemoveKey(s, k);
        assert r == [s[0]] + RemoveKey(s[1..], k);
        assert r[1..] == RemoveKey(s[1..], k);
      }
    }
  }

  /**
   * After `delete_by_id` removed a document, no query finds it by id again,
   * and a second delete changes nothing.
   */
  lemma DeleteIsFinal(c: Collection, oid: Value, filter: Document, rx: Regex)
    ensures !Targets(Removed(c, oid), oid, filter, rx)
    ensures Removed(Removed(c, oid), oid) == Removed(c, oid)
  {
    RemoveKeyIdempotent(c.order, oid);
    assert Removed(c, oid).docs - {oid} == Removed(c, oid).docs;
  }

  /**
   * `update_by_id` changes the collection only when it reports true: then
   * the matching document has exactly the given fields set, keeps its other
   * fields, and every other document and the insertion order stay as they
   * were. A false result or an error leaves the collection untouched.
   */
  lemma UpdateSetsOnlyGivenFields(c: Collection, rx: Regex, id: Value, data: Document, query: Document)
    requires Valid(c)
    ensures var (after, r) := UpdateByIdOutcome(c, rx, id, data, query);
      && Valid(after)
      && (r != Ok(true) ==> after == c)
      && (r == Ok(true) ==>
            var oid := ObjectIdOf(id).value;
            && ObjectIdOf(id).Ok? && oid in c.docs && Matches(c.docs[oid], query["_id" := oid], rx)
            && after.order == c.order && after.docs.Keys == c.docs.Keys
            && (forall k :: k in c.docs && k != oid ==> after.docs[k] == c.docs[k])
            && (forall f :: f in data ==> f in after.docs[oid] && after.docs[oid][f] == data[f])
            && (forall f :: f in c.docs[oid] && f !in data ==> f in after.docs[oid] && after.docs[oid][f] == c.docs[oid][f])
            && after.docs[oid] != c.docs[oid])
  {
    var (after, r) := UpdateByIdOutcome(c, rx, id, data, query);
    if ObjectIdOf(id).Ok? {
      var oid := ObjectIdOf(id).value;
      if oid in c.docs && r.Ok? && after != c {
        ChangesIff(c.docs[oid], data);
        ReplacedValid(c, oid, c.docs[oid] + data);
      }
    }
  }

  /**
   * `update_by_id` reports a change exactly when merging `data` into the
   * stored document gives a different document.
   */
  lemma ChangesIff(doc: Document, data: Document)
    ensures Changes(doc, data) <==> doc + data != doc
  {
    if Changes(doc, data) {
      var k :| k in data && (k !in doc || doc[k] != data[k]);
      assert (doc + data)[k] == data[k];
    } else {
      assert forall k :: k in data ==> k in doc && doc[k] == data[k];
      assert doc + data == doc;
    }
  }

  /**
   * A search value holding a regex special character is escaped before it
   * is compared, so a document holding that exact text in the field is not
   * found by `get_by_field` / `get_all_by_field`.
   */
  lemma EscapedLiteralNotFound(doc: Document, field: string, s: string, rx: Regex)
    requires field != "$or" && CountSpecial(s) > 0
    requires field in doc && doc[field] == Str(s)
    ensures !Matches(doc, EscapeDocument(map[field := Str(s)]), rx)
  {
    EscapeIdentity(s);
    var filter := EscapeDocument(map[field := Str(s)]);
    assert filter[field] == Str(Escape(s));
    assert !Condition(doc, field, filter[field], rx);
  }

  /** A text without special characters is found as it is. */
  lemma PlainLiteralFound(doc: Document, field: string, s: string, rx: Regex)
    requires field != "$or" && CountSpecial(s) == 0
    requires field in doc && doc[field] == Str(s)
    ensures Matches(doc, EscapeDocument(map[field := Str(s)]), rx)
  {
    EscapeIdentity(s);
    var filter := EscapeDocument(map[field := Str(s)]);
    assert filter == map[field := Str(s)];
    assert Condition(doc, field, Str(s), rx);
  }

  /**
   * With a limit, the pages `1..total_page` of a selection of `total`
   * documents are the non-empty ones: each holds at least one document and
   * every later page is empty.
   */
  lemma PagesCoverSelection<T>(s: seq<T>, page: nat, limit: nat)
    requires limit > 0 && page > 0
    ensures Window(s, SkipCount(page, limit), limit) != [] <==> page <= TotalPages(|s|, limit)
  {
    var n := TotalPages(|s|, limit);
    var skip := (page - 1) * limit;
    if page <= n {
      assert (page - 1) * limit <= (n - 1) * limit by {
        MulMonotone(page - 1, n - 1, limit);
      }
    } else {
      assert n * limit <= (page - 1) * limit by {
        MulMonotone(n, page - 1, limit);
      }
    }
  }

  /** The pages `1..n` of a listing, one after the other. */
  function FirstPages<T>(s: seq<T>, limit: nat, n: nat): seq<T>
  {
    if n == 0 then [] else FirstPages(s, limit, n - 1) + Window(s, SkipCount(n, limit), limit)
  }

  /**
   * With a limit, consecutive pages neither overlap nor leave a gap: pages
   * `1..n` together are the first `n * limit` documents of the listing, and
   * pages `1..total_page` together are all of it.
   */
  lemma {:induction false} PagesPartitionSelection<T>(s: seq<T>, limit: nat, n: nat)
    requires limit > 0
    ensures FirstPages(s, limit, n) == s[..if n * limit < |s| then n * limit else |s|]
    ensures n >= TotalPages(|s|, limit) ==> FirstPages(s, limit, n) == s
  {
    if n > 0 {
      PagesPartitionSelection(s, limit, n - 1);
      var m := (n - 1) * limit;
      assert m + limit == n * limit;
      assert SkipCount(n, limit) == m;
    }
    if n >= TotalPages(|s|, limit) {
      MulMonotone(TotalPages(|s|, limit), n, limit);
    }
  }

  lemma MulMonotone(a: nat, b: nat, m: nat)
    requires a <= b
    ensures a * m <= b * m
  {
  }

  /** When a sort field is given, the listed page is in the requested order. */
  lemma ListedKeysSorted(c: Collection, filter: Document, rx: Regex, sortBy: Option<string>, orderBy: Option<string>,
                         page: nat, limit: nat)
    requires SortField(sortBy).Some?
    ensures SortedBy(c.docs, sortBy.value, SortDirection(orderBy) == -1, ListedKeys(c, filter, rx, sortBy, orderBy, page, limit))
  {
    var selected := Select(c, filter, rx);
    var sorted := SortedIfAsked(c.docs, SortField(sortBy), SortDirection(orderBy) == -1, selected);
    WindowSorted(c.docs, sortBy.value, SortDirection(orderBy) == -1, sorted, SkipCount(page, limit), limit);
  }

  /** Without a sort field, the listed page is a slice of the selection in insertion order. */
  lemma ListedKeysUnsorted(c: Collection, filter: Document, rx: Regex, sortBy: Option<string>, orderBy: Option<string>,
                           page: nat, limit: nat)
    requires SortField(sortBy).None?
    ensures ListedKeys(c, filter, rx, sortBy, orderBy, page, limit) == Window(Select(c, filter, rx), SkipCount(page, limit), limit)
  {
  }
}
