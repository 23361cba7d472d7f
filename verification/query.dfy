/**
 * The value-level helpers of the store adapter (`BaseCRUD` in
 * app/db/base.py): regex escaping, boolean coercion, id-to-string
 * conversion, the field projection, and the pure part of `get_all` that
 * turns request parameters into a store filter, a skip and a page count.
 */
module Query {
  import opened Basics
  import opened Values
  import opened Errors
  import Text

  // ---------------------------------------------------------------- replace_special_chars

  /** The characters `replace_special_chars` escapes: `* + ? ^ $ { } ( ) | [ ] \`. */
  predicate IsSpecial(c: char)
  {
    c == '*' || c == '+' || c == '?' || c == '^' || c == '$' || c == '{' || c == '}'
    || c == '(' || c == ')' || c == '|' || c == '[' || c == ']' || c == '\\'
  }

  function CountSpecial(s: string): nat
  {
    if s == [] then 0 else (if IsSpecial(s[0]) then 1 else 0) + CountSpecial(s[1..])
  }

  /** Every special character prefixed by one backslash; every other character copied. */
  function Escape(s: string): (r: string)
    ensures |r| == |s| + CountSpecial(s)
  {
    if s == [] then []
    else (if IsSpecial(s[0]) then ['\\', s[0]] else [s[0]]) + Escape(s[1..])
  }

  /** Drops the backslash in front of each escaped character. */
  function Unescape(t: string): string
  {
    if t == [] then []
    else if t[0] == '\\' && |t| >= 2 then [t[1]] + Unescape(t[2..])
    else [t[0]] + Unescape(t[1..])
  }

  /** Escaping loses nothing: the original text is recovered from the escaped one. */
  lemma {:induction false} UnescapeEscape(s: string)
    ensures Unescape(Escape(s)) == s
  {
    if s != [] {
      UnescapeEscape(s[1..]);
      var e := Escape(s);
      if IsSpecial(s[0]) {
        assert e == ['\\', s[0]] + Escape(s[1..]);
        assert e[2..] == Escape(s[1..]);
      } else {
        assert e == [s[0]] + Escape(s[1..]);
        assert e[1..] == Escape(s[1..]);
      }
    }
  }

  /** A text with no special character is left as it is; one with a special character is changed. */
  lemma {:induction false} EscapeIdentity(s: string)
    ensures Escape(s) == s <==> CountSpecial(s) == 0
  {
    if s != [] {
      EscapeIdentity(s[1..]);
      if !IsSpecial(s[0]) {
        assert Escape(s) == [s[0]] + Escape(s[1..]);
        assert s == [s[0]] + s[1..];
        if Escape(s) == s {
          assert Escape(s)[1..] == s[1..];
        }
      }
    }
  }

  /**
   * `replace_special_chars`: every string value of a dict (at any depth of
   * nested dicts) or a lone string escaped; lists and other values untouched.
   */
  function ReplaceSpecialChars(v: Value): (r: Value)
    ensures v.Str? ==> r == Str(Escape(v.s))
    ensures v.Map? ==> r.Map? && r.fields.Keys == v.fields.Keys
    ensures !(v.Str? || v.Map?) ==> r == v
  {
    match v
    case Str(s) => Str(Escape(s))
    case Map(m) => Map(map k | k in m :: ReplaceSpecialChars(m[k]))
    case _ => v
  }

  /** `replace_special_chars` on a dict, as a dict. */
  function EscapeDocument(d: Document): (r: Document)
    ensures r.Keys == d.Keys && forall k :: k in d ==> r[k] == ReplaceSpecialChars(d[k])
  {
    ReplaceSpecialChars(Map(d)).fields
  }

  /** The inverse of `replace_special_chars` on the values it changes. */
  function RestoreSpecialChars(v: Value): Value
  {
    match v
    case Str(s) => Str(Unescape(s))
    case Map(m) => Map(map k | k in m :: RestoreSpecialChars(m[k]))
    case _ => v
  }

  /** `replace_special_chars` is undone by `RestoreSpecialChars`, at every depth. */
  lemma {:induction false} RestoreReplace(v: Value)
    ensures RestoreSpecialChars(ReplaceSpecialChars(v)) == v
  {
    match v
    case Str(s) => UnescapeEscape(s);
    case Map(m) =>
      forall k | k in m ensures RestoreSpecialChars(ReplaceSpecialChars(m[k])) == m[k] {
        RestoreReplace(m[k]);
      }
    case _ =>
  }

  // ---------------------------------------------------------------- convert_bools

  /**
   * `convert_bools`: the strings "true" and "false" become booleans, at any
   * depth of dicts and lists; everything else is kept.
   */
  function ConvertBools(v: Value): (r: Value)
    ensures v.Str? ==> r == (if v.s == "true" then Bool(true) else if v.s == "false" then Bool(false) else v)
    ensures v.Map? ==> r.Map? && r.fields.Keys == v.fields.Keys
    ensures v.List? ==> r.List? && |r.items| == |v.items|
    ensures !(v.Str? || v.Map? || v.List?) ==> r == v
  {
    match v
    case Map(m) => Map(map k | k in m :: ConvertBools(m[k]))
    case List(xs) => List(seq(|xs|, i requires 0 <= i < |xs| => ConvertBools(xs[i])))
    case Str(s) => if s == "true" then Bool(true) else if s == "false" then Bool(false) else v
    case _ => v
  }

  /** `convert_bools` on a dict, as a dict. */
  function ConvertBoolsDocument(d: Document): (r: Document)
    ensures r.Keys == d.Keys && forall k :: k in d ==> r[k] == ConvertBools(d[k])
  {
    ConvertBools(Map(d)).fields
  }

  /** Coercing twice is coercing once. */
  lemma {:induction false} ConvertBoolsIdempotent(v: Value)
    ensures ConvertBools(ConvertBools(v)) == ConvertBools(v)
  {
    match v
    case Map(m) =>
      var r := ConvertBools(v);
      forall k | k in m ensures ConvertBools(r.fields[k]) == r.fields[k] {
        ConvertBoolsIdempotent(m[k]);
      }
    case List(xs) =>
      var r := ConvertBools(v);
      forall i | 0 <= i < |xs| ensures ConvertBools(r.items[i]) == r.items[i] {
        ConvertBoolsIdempotent(xs[i]);
      }
    case _ =>
  }

  // ---------------------------------------------------------------- convert_object_id_to_string

  /**
   * `convert_object_id_to_string`: a document whose `_id` is missing or
   * `None` is returned as it is; otherwise `_id` becomes its `str()` form.
   */
  function ConvertObjectIdToString(d: Document): (r: Document)
    ensures r.Keys == d.Keys
    ensures forall k :: k in d && k != "_id" ==> r[k] == d[k]
    ensures Get(d, "_id") == Null ==> r == d
    ensures "_id" in d && d["_id"].Oid? ==> r["_id"] == Str(d["_id"].hex)
    ensures "_id" in d && d["_id"] != Null ==> r["_id"].Str?
  {
    if Get(d, "_id") == Null then d else d["_id" := Str(Render(d["_id"]))]
  }

  // ---------------------------------------------------------------- build_field_projection

  /** The `fields_limit` argument: absent, a list of names, or a comma-separated string. */
  datatype FieldsLimit = NoFields | FieldList(names: seq<string>) | FieldText(text: string)

  /** The names a `fields_limit` lists before stripping; a falsy argument lists none. */
  function FieldNames(f: FieldsLimit): seq<string>
  {
    match f
    case NoFields => []
    case FieldList(names) => names
    case FieldText(text) => if text == "" then [] else Text.Split(text, ",")
  }

  /** The stripped names of a sequence of names. */
  function Stripped(names: seq<string>): set<string>
  {
    set n | n in names :: Text.Strip(n)
  }

  lemma StrippedSnoc(names: seq<string>, i: nat)
    requires i < |names|
    ensures Stripped(names[..i + 1]) == Stripped(names[..i]) + {Text.Strip(names[i])}
  {
    assert names[..i + 1] == names[..i] + [names[i]];
  }

  /**
   * `build_field_projection`: each listed name, stripped of surrounding
   * whitespace, mapped to 1.
   */
  method BuildFieldProjection(f: FieldsLimit) returns (projection: map<string, int>)
    ensures projection.Keys == Stripped(FieldNames(f))
    ensures forall k :: k in projection ==> projection[k] == 1
    ensures f.NoFields? || f == FieldList([]) || f == FieldText("") ==> projection == map[]
  {
    projection := map[];
    if f.NoFields? || f == FieldList([]) || f == FieldText("") {
      return;
    }
    var names := FieldNames(f);
    for i := 0 to |names|
      invariant projection.Keys == Stripped(names[..i])
      invariant forall k :: k in projection ==> projection[k] == 1
    {
      StrippedSnoc(names, i);
      projection := projection[Text.Strip(names[i]) := 1];
    }
    assert names[..|names|] == names;
  }

  // ---------------------------------------------------------------- get_all: filter, skip, pages

  /** The request parameters `get_all` removes from the caller's query. */
  const ReservedKeys: set<string> := {"search", "page", "limit", "fields", "sort_by", "order_by"}

  /** One case-insensitive regex condition per searched field, in the given order. */
  function SearchClauses(pattern: string, fields: seq<string>): (r: seq<Value>)
    ensures |r| == |fields|
    ensures forall i :: 0 <= i < |fields| ==>
      r[i] == Map(map[fields[i] := Map(map["$regex" := Str(".*" + pattern + ".*"), "$options" := Str("i")])])
  {
    seq(|fields|, i requires 0 <= i < |fields| =>
      Map(map[fields[i] := Map(map["$regex" := Str(".*" + pattern + ".*"), "$options" := Str("i")])]))
  }

  /** The filter `get_all` builds before the search clauses: reserved keys removed, escaped, then bool-coerced. */
  function PlainFilter(query: Document): Document
  {
    ConvertBoolsDocument(EscapeDocument(map k | k in query && k !in ReservedKeys :: query[k]))
  }

  /**
   * The store filter `get_all` sends. A truthy `search` replaces `$or` by the
   * search clauses over `search_in` (iterating a missing `search_in` raises
   * TypeError).
   */
  function ListFilter(query: Document, search: Option<string>, searchIn: Option<seq<string>>): (r: Outcome<Document>)
    ensures r.Err? <==> search.Some? && search.value != "" && searchIn.None?
    ensures r.Ok? ==> forall k :: k in ReservedKeys ==> k !in r.value
    ensures r.Ok? ==> forall k :: k in query && k !in ReservedKeys && k != "$or" ==>
      k in r.value && r.value[k] == ConvertBools(ReplaceSpecialChars(query[k]))
    ensures r.Ok? && (search.None? || search.value == "") ==> r.value.Keys == query.Keys - ReservedKeys
    ensures r.Ok? && (search.None? || search.value == "") ==>
      forall k :: k in query && k !in ReservedKeys ==> r.value[k] == ConvertBools(ReplaceSpecialChars(query[k]))
    ensures r.Ok? && search.Some? && search.value != "" ==>
      r.value.Keys == query.Keys - ReservedKeys + {"$or"}
      && r.value["$or"] == List(SearchClauses(Escape(search.value), searchIn.value))
  {
    var base := PlainFilter(query);
    if search.None? || search.value == "" then Ok(base)
    else if searchIn.None? then Err(TypeError("'NoneType' object is not iterable"))
    else Ok(base["$or" := List(SearchClauses(Escape(search.value), searchIn.value))])
  }

  /** How many documents `get_all` skips: `(page - 1) * limit` when both are given, else none. */
  function SkipCount(page: nat, limit: nat): (r: nat)
    ensures page == 0 || limit == 0 ==> r == 0
    ensures page > 0 && limit > 0 ==> r == (page - 1) * limit
  {
    if page > 0 && limit > 0 then (page - 1) * limit else 0
  }

  /** `math.ceil(total / limit)` when a limit is given, else 1. */
  function TotalPages(total: nat, limit: nat): (r: nat)
    ensures limit == 0 ==> r == 1
    ensures limit > 0 ==> r * limit >= total && (r == 0 || (r - 1) * limit < total)
  {
    if limit == 0 then 1 else (total + limit - 1) / limit
  }

  /** The sort direction: descending (-1) exactly for "desc", ascending (1) for anything else. */
  function SortDirection(orderBy: Option<string>): (r: int)
    ensures r == -1 <==> orderBy == Some("desc")
    ensures r == 1 <==> orderBy != Some("desc")
  {
    if orderBy == Some("desc") then -1 else 1
  }

  /** `get_all` sorts only when `sort_by` is truthy. */
  function SortField(sortBy: Option<string>): (r: Option<string>)
    ensures r.Some? <==> sortBy.Some? && sortBy.value != ""
    ensures r.Some? ==> r == sortBy
  {
    if sortBy.Some? && sortBy.value != "" then sortBy else None
  }
}
