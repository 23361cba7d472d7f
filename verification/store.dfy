/**
 * What the adapter relies on from the document store and its driver: how an
 * id string becomes an ObjectId, which stored documents a filter selects,
 * the order `sort` puts them in, and the `skip`/`limit` window. A collection
 * is kept as its documents keyed by `_id`, together with the order in which
 * they were inserted (the order an unsorted `find` returns them in).
 */
module Store {
  import opened Basics
  import opened Values
  import opened Errors
  import Text

  // ---------------------------------------------------------------- ObjectId

  predicate IsHexDigit(c: char)
  {
    ('0' <= c <= '9') || ('a' <= c <= 'f') || ('A' <= c <= 'F')
  }

  /** The form `str(ObjectId(..))` prints: 24 lower-case hexadecimal digits. */
  predicate IsCanonicalHex(h: string)
  {
    |h| == 24 && forall i :: 0 <= i < |h| ==> ('0' <= h[i] <= '9') || ('a' <= h[i] <= 'f')
  }

  /** 24 hexadecimal digits, in either case. */
  predicate IsHexId(s: string)
  {
    |s| == 24 && forall i :: 0 <= i < |s| ==> IsHexDigit(s[i])
  }

  /** The driver's refusal of an id that is neither a string nor an ObjectId. */
  const NotAnId := "id must be an instance of (str, ObjectId)"

  /**
   * `bson.ObjectId(v)`. A string must be 24 hexadecimal digits (either case)
   * or it raises InvalidId; an ObjectId is copied; `None` makes a freshly
   * generated id, which no stored document carries (written here as the
   * empty `Oid("")`); anything else raises TypeError.
   */
  function ObjectIdOf(v: Value): (r: Outcome<Value>)
    ensures r.Ok? ==> r.value.Oid?
  {
    match v
    case Str(s) => if IsHexId(s) then Ok(Oid(Text.LowerAll(s))) else Err(InvalidId(s))
    case Oid(_) => Ok(v)
    case Null => Ok(Oid(""))
    case _ => Err(TypeError(NotAnId))
  }

  /**
   * A string is accepted exactly when it is 24 hexadecimal digits, and then
   * it names the id printed as its lower-case form; a rejected string is
   * reported as an invalid id; an ObjectId is kept; any other type but
   * `None` is a type error.
   */
  lemma ObjectIdOfSpec(v: Value)
    ensures v.Str? ==> (ObjectIdOf(v).Ok? <==> IsHexId(v.s))
    ensures v.Str? && ObjectIdOf(v).Ok? ==>
      IsCanonicalHex(ObjectIdOf(v).value.hex) && ObjectIdOf(v).value.hex == Text.LowerAll(v.s)
    ensures v.Str? && ObjectIdOf(v).Err? ==> ObjectIdOf(v).error == InvalidId(v.s)
    ensures v.Oid? ==> ObjectIdOf(v) == Ok(v)
    ensures !(v.Str? || v.Oid? || v.Null?) ==> ObjectIdOf(v).Err? && ObjectIdOf(v).error.TypeError?
  {
    if v.Str? && IsHexId(v.s) {
      var h := Text.LowerAll(v.s);
      forall i | 0 <= i < |h| ensures ('0' <= h[i] <= '9') || ('a' <= h[i] <= 'f') {
        assert IsHexDigit(v.s[i]);
      }
    }
  }

  /** The string of a stored id names that id again. */
  lemma ObjectIdRoundTrip(h: string)
    requires IsCanonicalHex(h)
    ensures ObjectIdOf(Str(h)) == Ok(Oid(h))
  {
    var l := Text.LowerAll(h);
    assert IsHexId(h);
    forall i | 0 <= i < |h| ensures l[i] == h[i] {
    }
    assert l == h;
  }

  // ---------------------------------------------------------------- filters

  /** The `$regex` evaluation of the store, left abstract: pattern, options, subject. */
  type Regex = (string, string, string) -> bool

  /** A field condition `{k: v}` with `v` a plain value: equal, where a missing field equals `None`. */
  predicate FieldEquals(doc: Document, k: string, v: Value)
  {
    if k in doc then doc[k] == v else v == Null
  }

  /** `v` is a `{"$regex": pattern, ...}` condition. */
  predicate IsRegexCondition(v: Value)
  {
    v.Map? && "$regex" in v.fields && v.fields["$regex"].Str?
  }

  /** The `$options` of a regex condition, empty when absent. */
  function RegexOptions(v: Value): string
    requires IsRegexCondition(v)
  {
    if "$options" in v.fields && v.fields["$options"].Str? then v.fields["$options"].s else ""
  }

  /** `doc` satisfies every condition of `filter` (the empty filter selects everything). */
  predicate Matches(doc: Document, filter: Document, rx: Regex)
    decreases Map(filter)
  {
    forall k :: k in filter ==> Condition(doc, k, filter[k], rx)
  }

  /** `doc` satisfies the one condition `{k: v}` of a filter. */
  predicate Condition(doc: Document, k: string, v: Value, rx: Regex)
    decreases v
  {
    if k == "$or" then
      v.List? && exists i :: 0 <= i < |v.items| && v.items[i].Map? && Matches(doc, v.items[i].fields, rx)
    else if IsRegexCondition(v) then
      k in doc && doc[k].Str? && rx(v.fields["$regex"].s, RegexOptions(v), doc[k].s)
    else FieldEquals(doc, k, v)
  }

  predicate IsOperator(k: string)
  {
    |k| > 0 && k[0] == '$'
  }

  /**
   * A filter the store accepts: the only top-level operator is `$or`, and its
   * value is a non-empty list of acceptable sub-filters. Anything else makes
   * the query fail on the server.
   */
  predicate Accepted(filter: Document)
    decreases Map(filter)
  {
    (forall k :: k in filter && IsOperator(k) ==> k == "$or")
    && ("$or" in filter ==>
      var v := filter["$or"];
      v.List? && |v.items| > 0
      && forall i :: 0 <= i < |v.items| ==> v.items[i].Map? && Accepted(v.items[i].fields))
  }

  // ---------------------------------------------------------------- collections

  /** A collection: stored documents by `_id`, and their insertion order. */
  datatype Collection = Collection(order: seq<Value>, docs: map<Value, Document>)

  predicate Distinct(s: seq<Value>)
  {
    forall i, j :: 0 <= i < j < |s| ==> s[i] != s[j]
  }

  /**
   * Every stored document carries its own key as `_id`, every key is listed
   * exactly once in the insertion order, and every ObjectId key is one the
   * driver could have produced.
   */
  ghost predicate Valid(c: Collection)
  {
    Distinct(c.order)
    && (forall k :: k in c.docs <==> k in c.order)
    && (forall k :: k in c.docs ==> "_id" in c.docs[k] && c.docs[k]["_id"] == k)
    && (forall k :: k in c.docs && k.Oid? ==> IsCanonicalHex(k.hex))
  }

  /** The keys, in `order`, of the documents that `filter` selects. */
  function SelectFrom(order: seq<Value>, docs: map<Value, Document>, filter: Document, rx: Regex): (r: seq<Value>)
    ensures |r| <= |order|
    ensures forall k :: k in r <==> k in order && k in docs && Matches(docs[k], filter, rx)
    ensures Distinct(order) ==> Distinct(r)
  {
    if order == [] then []
    else
      var rest := SelectFrom(order[1..], docs, filter, rx);
      assert forall k :: k in order <==> k == order[0] || k in order[1..];
      if order[0] in docs && Matches(docs[order[0]], filter, rx) then
        assert Distinct(order) ==> order[0] !in order[1..];
        [order[0]] + rest
      else rest
  }

  /** `find(filter)` without sort, as keys: the selected documents in insertion order. */
  function Select(c: Collection, filter: Document, rx: Regex): seq<Value>
  {
    SelectFrom(c.order, c.docs, filter, rx)
  }

  /** `find_one(filter)`: the first selected document, if any. */
  function FindOne(c: Collection, filter: Document, rx: Regex): (r: Option<Document>)
    ensures r.Some? ==> exists k :: k in c.docs && c.docs[k] == r.value && Matches(r.value, filter, rx)
    ensures r.None? ==> forall k :: k in c.docs && k in c.order ==> !Matches(c.docs[k], filter, rx)
  {
    var s := Select(c, filter, rx);
    if s == [] then None
    else
      assert s[0] in s;
      Some(c.docs[s[0]])
  }

  /** `count_documents(filter)`. */
  function Count(c: Collection, filter: Document, rx: Regex): nat
  {
    |Select(c, filter, rx)|
  }

  lemma TwoDistinct(s: seq<Value>)
    requires Distinct(s) && |s| > 1
    ensures s[0] in s && s[1] in s && s[0] != s[1]
  {
  }

  /** A filter that names an ObjectId as `_id` selects at most the document stored under that key. */
  lemma SelectById(c: Collection, filter: Document, rx: Regex)
    requires Valid(c) && "_id" in filter && filter["_id"].Oid?
    ensures var s := Select(c, filter, rx);
      |s| <= 1 && (s != [] <==> filter["_id"] in c.docs && Matches(c.docs[filter["_id"]], filter, rx))
      && (s != [] ==> s == [filter["_id"]])
  {
    var s := Select(c, filter, rx);
    var id := filter["_id"];
    forall k | k in s ensures k == id {
      assert Condition(c.docs[k], "_id", id, rx);
    }
    if |s| > 1 {
      TwoDistinct(s);
      assert false;
    }
    if s != [] {
      assert s[0] in s;
    }
    if id in c.docs && Matches(c.docs[id], filter, rx) {
      assert id in s;
    }
  }

  /** The collection with `doc` inserted under the new key `key`, last in insertion order. */
  function Inserted(c: Collection, key: Value, doc: Document): Collection
  {
    Collection(c.order + [key], c.docs[key := doc])
  }

  /** The collection with the document under `key` replaced by `doc`. */
  function Replaced(c: Collection, key: Value, doc: Document): Collection
  {
    Collection(c.order, c.docs[key := doc])
  }

  /** `s` without `k`. */
  function RemoveKey(s: seq<Value>, k: Value): (r: seq<Value>)
    ensures forall x :: x in r <==> x in s && x != k
    ensures Distinct(s) ==> Distinct(r)
  {
    if s == [] then []
    else
      var rest := RemoveKey(s[1..], k);
      assert forall x :: x in s <==> x == s[0] || x in s[1..];
      if s[0] == k then rest
      else
        assert Distinct(s) ==> s[0] !in s[1..];
        [s[0]] + rest
  }

  /** The collection with the document under `key` removed. */
  function Removed(c: Collection, key: Value): Collection
  {
    Collection(RemoveKey(c.order, key), c.docs - {key})
  }

  /** Inserting a document that carries its new key as `_id` keeps a collection valid. */
  lemma InsertedValid(c: Collection, key: Value, doc: Document)
    requires Valid(c) && key !in c.docs
    requires "_id" in doc && doc["_id"] == key && (key.Oid? ==> IsCanonicalHex(key.hex))
    ensures Valid(Inserted(c, key, doc))
  {
    var order := c.order + [key];
    forall i, j | 0 <= i < j < |order| ensures order[i] != order[j] {
      if j == |order| - 1 {
        assert order[i] in c.order;
      }
    }
  }

  /** Replacing a document by one with the same `_id` keeps a collection valid. */
  lemma ReplacedValid(c: Collection, key: Value, doc: Document)
    requires Valid(c) && key in c.docs
    requires "_id" in doc && doc["_id"] == key
    ensures Valid(Replaced(c, key, doc))
  {
  }

  /** Removing a document keeps a collection valid. */
  lemma RemovedValid(c: Collection, key: Value)
    requires Valid(c)
    ensures Valid(Removed(c, key))
  {
  }

  // ---------------------------------------------------------------- sort order

  /** The store's order between kinds of value: null, numbers, strings, objects, arrays, ObjectId, bool, date. */
  function Rank(v: Value): nat
  {
    match v
    case Null => 0
    case Int(_) => 1
    case Str(_) => 2
    case Map(_) => 3
    case List(_) => 4
    case Oid(_) => 5
    case Bool(_) => 6
    case Time(_) => 7
  }

  /** Code-point order on strings. */
  predicate TextLe(a: string, b: string)
  {
    if a == [] then true
    else if b == [] then false
    else if a[0] != b[0] then a[0] < b[0]
    else TextLe(a[1..], b[1..])
  }

  lemma {:induction false} TextLeTotal(a: string, b: string)
    ensures TextLe(a, b) || TextLe(b, a)
  {
    if a != [] && b != [] && a[0] == b[0] {
      TextLeTotal(a[1..], b[1..]);
    }
  }

  lemma {:induction false} TextLeTransitive(a: string, b: string, c: string)
    requires TextLe(a, b) && TextLe(b, c)
    ensures TextLe(a, c)
  {
    if a != [] && b != [] && c != [] && a[0] == b[0] && b[0] == c[0] {
      TextLeTransitive(a[1..], b[1..], c[1..]);
    }
  }

  /**
   * The store's ascending order between two values: by kind, then by value
   * within a kind. Two embedded documents, or two arrays, are not ordered
   * against each other (they compare as equal here).
   */
  predicate ValueLe(a: Value, b: Value)
  {
    if Rank(a) != Rank(b) then Rank(a) < Rank(b)
    else match (a, b)
      case (Int(x), Int(y)) => x <= y
      case (Str(x), Str(y)) => TextLe(x, y)
      case (Oid(x), Oid(y)) => TextLe(x, y)
      case (Bool(x), Bool(y)) => !x || y
      case (Time(x), Time(y)) => x <= y
      case _ => true
  }

  lemma ValueLeTotal(a: Value, b: Value)
    ensures ValueLe(a, b) || ValueLe(b, a)
  {
    match (a, b)
    case (Str(x), Str(y)) => TextLeTotal(x, y);
    case (Oid(x), Oid(y)) => TextLeTotal(x, y);
    case _ =>
  }

  lemma ValueLeTransitive(a: Value, b: Value, c: Value)
    requires ValueLe(a, b) && ValueLe(b, c)
    ensures ValueLe(a, c)
  {
    if Rank(a) == Rank(b) == Rank(c) {
      match (a, b, c)
      case (Str(x), Str(y), Str(z)) => TextLeTransitive(x, y, z);
      case (Oid(x), Oid(y), Oid(z)) => TextLeTransitive(x, y, z);
      case _ =>
    }
  }

  /** The sort key of the document stored under `k`: its field `field`, `None` when missing. */
  function SortKey(docs: map<Value, Document>, field: string, k: Value): Value
  {
    if k in docs then Get(docs[k], field) else Null
  }

  /** `k1` may come before `k2` in a sort on `field`, ascending or descending. */
  predicate Before(docs: map<Value, Document>, field: string, descending: bool, k1: Value, k2: Value)
  {
    var a, b := SortKey(docs, field, k1), SortKey(docs, field, k2);
    if descending then ValueLe(b, a) else ValueLe(a, b)
  }

  lemma BeforeTotal(docs: map<Value, Document>, field: string, descending: bool, k1: Value, k2: Value)
    ensures Before(docs, field, descending, k1, k2) || Before(docs, field, descending, k2, k1)
  {
    ValueLeTotal(SortKey(docs, field, k1), SortKey(docs, field, k2));
  }

  lemma BeforeTransitive(docs: map<Value, Document>, field: string, descending: bool, k1: Value, k2: Value, k3: Value)
    requires Before(docs, field, descending, k1, k2) && Before(docs, field, descending, k2, k3)
    ensures Before(docs, field, descending, k1, k3)
  {
    var a, b, c := SortKey(docs, field, k1), SortKey(docs, field, k2), SortKey(docs, field, k3);
    if descending {
      ValueLeTransitive(c, b, a);
    } else {
      ValueLeTransitive(a, b, c);
    }
  }

  predicate SortedBy(docs: map<Value, Document>, field: string, descending: bool, s: seq<Value>)
  {
    forall i, j :: 0 <= i < j < |s| ==> Before(docs, field, descending, s[i], s[j])
  }

  /** Places `k` in the sorted `s` after every key it may not precede. */
  function InsertKey(docs: map<Value, Document>, field: string, descending: bool, k: Value, s: seq<Value>): seq<Value>
  {
    if s == [] then [k]
    else if Before(docs, field, descending, k, s[0]) && !Before(docs, field, descending, s[0], k) then [k] + s
    else [s[0]] + InsertKey(docs, field, descending, k, s[1..])
  }

  /** The keys `s` ordered by `sort([(field, direction)])`; keys with equal sort keys keep their order. */
  function SortKeys(docs: map<Value, Document>, field: string, descending: bool, s: seq<Value>): seq<Value>
  {
    if s == [] then [] else InsertKey(docs, field, descending, s[|s| - 1], SortKeys(docs, field, descending, s[..|s| - 1]))
  }

  /** Prefixing a key that may precede every element keeps a sequence sorted. */
  lemma SortedCons(docs: map<Value, Document>, field: string, descending: bool, x: Value, t: seq<Value>)
    requires SortedBy(docs, field, descending, t)
    requires forall y :: y in t ==> Before(docs, field, descending, x, y)
    ensures SortedBy(docs, field, descending, [x] + t)
  {
    var r := [x] + t;
    forall i, j | 0 <= i < j < |r| ensures Before(docs, field, descending, r[i], r[j]) {
      if i == 0 {
        assert r[j] == t[j - 1] && t[j - 1] in t;
      } else {
        assert r[i] == t[i - 1] && r[j] == t[j - 1];
      }
    }
  }

  /** The head of a sorted sequence may precede every element of the rest with `k` added. */
  lemma HeadPrecedes(docs: map<Value, Document>, field: string, descending: bool, s: seq<Value>, k: Value, t: seq<Value>)
    requires s != [] && SortedBy(docs, field, descending, s)
    requires Before(docs, field, descending, s[0], k)
    requires multiset(t) == multiset(s[1..]) + multiset{k}
    ensures forall y :: y in t ==> Before(docs, field, descending, s[0], y)
  {
    forall y | y in t ensures Before(docs, field, descending, s[0], y) {
      assert y in multiset(t);
      if y != k {
        assert y in multiset(s[1..]);
        assert y in s[1..];
        var m :| 0 <= m < |s[1..]| && s[1..][m] == y;
        assert s[m + 1] == y;
      }
    }
  }

  /** A key that may precede the head of a sorted sequence may precede all of it. */
  lemma PrecedesAll(docs: map<Value, Document>, field: string, descending: bool, k: Value, s: seq<Value>)
    requires s != [] && SortedBy(docs, field, descending, s)
    requires Before(docs, field, descending, k, s[0])
    ensures forall y :: y in s ==> Before(docs, field, descending, k, y)
  {
    forall y | y in s ensures Before(docs, field, descending, k, y) {
      var j :| 0 <= j < |s| && s[j] == y;
      if j > 0 {
        BeforeTransitive(docs, field, descending, k, s[0], s[j]);
      }
    }
  }

  lemma SortedTail(docs: map<Value, Document>, field: string, descending: bool, s: seq<Value>)
    requires s != [] && SortedBy(docs, field, descending, s)
    ensures SortedBy(docs, field, descending, s[1..])
  {
    forall i, j | 0 <= i < j < |s[1..]| ensures Before(docs, field, descending, s[1..][i], s[1..][j]) {
      assert s[1..][i] == s[i + 1] && s[1..][j] == s[j + 1];
    }
  }

  /** Keeping the head in front of the rest with `k` inserted keeps the order and the elements. */
  lemma InsertAfterHead(docs: map<Value, Document>, field: string, descending: bool, k: Value, s: seq<Value>, t: seq<Value>)
    requires s != [] && SortedBy(docs, field, descending, s)
    requires !(Before(docs, field, descending, k, s[0]) && !Before(docs, field, descending, s[0], k))
    requires SortedBy(docs, field, descending, t) && multiset(t) == multiset(s[1..]) + multiset{k}
    ensures SortedBy(docs, field, descending, [s[0]] + t)
    ensures multiset([s[0]] + t) == multiset(s) + multiset{k}
  {
    BeforeTotal(docs, field, descending, k, s[0]);
    HeadPrecedes(docs, field, descending, s, k, t);
    SortedCons(docs, field, descending, s[0], t);
    assert s == [s[0]] + s[1..];
  }

  lemma {:induction false} InsertKeySorted(docs: map<Value, Document>, field: string, descending: bool, k: Value, s: seq<Value>)
    requires SortedBy(docs, field, descending, s)
    ensures multiset(InsertKey(docs, field, descending, k, s)) == multiset(s) + multiset{k}
    ensures SortedBy(docs, field, descending, InsertKey(docs, field, descending, k, s))
  {
    if s == [] {
    } else if Before(docs, field, descending, k, s[0]) && !Before(docs, field, descending, s[0], k) {
      PrecedesAll(docs, field, descending, k, s);
      SortedCons(docs, field, descending, k, s);
    } else {
      SortedTail(docs, field, descending, s);
      InsertKeySorted(docs, field, descending, k, s[1..]);
      InsertAfterHead(docs, field, descending, k, s, InsertKey(docs, field, descending, k, s[1..]));
    }
  }

  /** Sorting keeps exactly the same keys and puts them in the requested order. */
  lemma {:induction false} SortKeysCorrect(docs: map<Value, Document>, field: string, descending: bool, s: seq<Value>)
    ensures multiset(SortKeys(docs, field, descending, s)) == multiset(s)
    ensures SortedBy(docs, field, descending, SortKeys(docs, field, descending, s))
  {
    if s != [] {
      var init := s[..|s| - 1];
      SortKeysCorrect(docs, field, descending, init);
      InsertKeySorted(docs, field, descending, s[|s| - 1], SortKeys(docs, field, descending, init));
      assert s == init + [s[|s| - 1]];
    }
  }

  // ---------------------------------------------------------------- skip and limit

  /** `skip(n)` then `limit(m)` on a cursor; a limit of 0 means no limit. */
  function Window<T>(s: seq<T>, skip: nat, limit: nat): (r: seq<T>)
    ensures |r| == if skip >= |s| then 0 else if limit == 0 || |s| - skip < limit then |s| - skip else limit
    ensures limit > 0 ==> |r| <= limit
    ensures skip <= |s| ==> r == s[skip..skip + |r|]
  {
    var t := if skip <= |s| then s[skip..] else [];
    if limit > 0 && limit < |t| then t[..limit] else t
  }

  /** A window of a sorted sequence is sorted. */
  lemma WindowSorted(docs: map<Value, Document>, field: string, descending: bool, s: seq<Value>, skip: nat, limit: nat)
    requires SortedBy(docs, field, descending, s)
    ensures SortedBy(docs, field, descending, Window(s, skip, limit))
  {
    var r := Window(s, skip, limit);
    forall i, j | 0 <= i < j < |r| ensures Before(docs, field, descending, r[i], r[j]) {
      assert r[i] == s[skip + i] && r[j] == s[skip + j];
    }
  }
}
