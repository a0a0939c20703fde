/** The JSON values the GraphQL response carries in its `sprites` and `cries`
    columns, and the two ways the normaliser reads a field out of an object:
    org.json's `optString`/`optJSONObject` on parsed text, and Kotlin's
    `map[key] as? String` / `as? Map<*, *>` on an already-decoded map. */
module JsonModel {
  import opened Wrappers
  import opened Text

  /** A decoded JSON value. A Kotlin `Map<*, *>` payload is a `JObject`, a
      Kotlin `String` payload a `JString`; any other payload (a list, a number,
      a boolean, null) is one of the remaining constructors. */
  datatype Json =
    | JString(s: string)
    | JObject(fields: map<string, Json>)
    | JArray(items: seq<Json>)
    | JNumber(n: real)
    | JBool(b: bool)
    | JNull

  /** org.json as the normaliser uses it. `parse` is `JSONObject(text)`, with
      `None` for the exception it throws on text that is not a JSON object;
      `render` is the text `optString` coerces a present, non-string value to
      (a number's digits, "true", an array's JSON text, ...). */
  datatype JsonText = JsonText(
    parse: string -> Option<map<string, Json>>,
    render: Json -> string)

  /** `obj.optString(key)`: the string itself, the coerced text of any other
      value, or "" when the key is absent. */
  function OptString(o: map<string, Json>, key: string, render: Json -> string): (t: string)
    ensures key !in o ==> t == ""
    ensures key in o && o[key].JString? ==> t == o[key].s
    ensures key in o && !o[key].JString? ==> t == render(o[key])
  {
    if key !in o then ""
    else match o[key]
      case JString(s) => s
      case v => render(v)
  }

  /** `map[key] as? String`: the value when it is a string, otherwise nothing. */
  function StringField(o: map<string, Json>, key: string): (r: Option<string>)
    ensures r.Some? <==> key in o && o[key].JString?
    ensures r.Some? ==> o[key] == JString(r.value)
  {
    if key in o && o[key].JString? then Some(o[key].s) else None
  }

  /** `optJSONObject(key)` and `map[key] as? Map<*, *>`: the value when it is
      an object, otherwise nothing. */
  function ObjectField(o: map<string, Json>, key: string): (r: Option<map<string, Json>>)
    ensures r.Some? <==> key in o && o[key].JObject?
    ensures r.Some? ==> o[key] == JObject(r.value)
  {
    if key in o && o[key].JObject? then Some(o[key].fields) else None
  }

  /** `takeIf { it.isNotBlank() }`: a blank string counts as absent. */
  function NonBlank(s: string): (r: Option<string>)
    ensures r.Some? <==> !IsBlank(s)
    ensures r.Some? ==> r.value == s
  {
    if IsBlank(s) then None else Some(s)
  }

  // ---------------------------------------------------------------------
  // A reference reading of nested fields, independent of the extractors:
  // follow a path of keys through nested objects.
  // ---------------------------------------------------------------------

  /** The value at `path`, descending through objects; nothing when a key is
      missing or an intermediate value is not an object. */
  function ValueAt(o: map<string, Json>, path: seq<string>): Option<Json>
    requires |path| > 0
    decreases |path|
  {
    if path[0] !in o then None
    else if |path| == 1 then Some(o[path[0]])
    else match o[path[0]]
      case JObject(inner) => ValueAt(inner, path[1..])
      case _ => None
  }

  /** The string at `path` if there is one there (the `as? String` reading). */
  function StringAt(o: map<string, Json>, path: seq<string>): Option<string>
    requires |path| > 0
  {
    match ValueAt(o, path)
    case Some(JString(s)) => Some(s)
    case _ => None
  }

  /** The `optString` reading of `path`: nothing when the enclosing object is
      missing, otherwise the string, the coerced text, or "" when absent. */
  function CoercedAt(o: map<string, Json>, path: seq<string>, render: Json -> string): Option<string>
    requires |path| > 0
  {
    var parentExists := |path| == 1 || (ValueAt(o, path[..|path| - 1]).Some? && ValueAt(o, path[..|path| - 1]).value.JObject?);
    if !parentExists then None
    else match ValueAt(o, path)
      case None => Some("")
      case Some(JString(s)) => Some(s)
      case Some(v) => Some(render(v))
  }

  /** The path holds a string or nothing at all: the case where the two
      readings coincide. */
  predicate StringOrAbsentAt(o: map<string, Json>, path: seq<string>)
    requires |path| > 0
  {
    ValueAt(o, path).None? || ValueAt(o, path).value.JString?
  }

  /** The elvis chain `a.takeIf { it.isNotBlank() } ?: b.takeIf { it.isNotBlank() }`. */
  function FirstNonBlank(a: Option<string>, b: Option<string>): (r: Option<string>)
    ensures r.Some? <==> (a.Some? && !IsBlank(a.value)) || (b.Some? && !IsBlank(b.value))
    ensures r.Some? ==> !IsBlank(r.value) && (r == a || r == b)
    ensures a.Some? && !IsBlank(a.value) ==> r == a
  {
    if a.Some? && !IsBlank(a.value) then a
    else if b.Some? && !IsBlank(b.value) then b
    else None
  }

  /** A value found below the top level sits inside an object found at the
      path's prefix. */
  lemma {:induction false} ValueAtHasObjectParent(o: map<string, Json>, path: seq<string>)
    requires |path| > 1
    requires ValueAt(o, path).Some?
    ensures ValueAt(o, path[..|path| - 1]).Some? && ValueAt(o, path[..|path| - 1]).value.JObject?
    decreases |path|
  {
    var inner := o[path[0]].fields;
    assert path[..|path| - 1][1..] == path[1..][..|path| - 2];
    if |path| > 2 {
      ValueAtHasObjectParent(inner, path[1..]);
    }
  }

  /** Where the two readings of a string-or-absent path differ, they differ
      only by a blank "" against nothing, which the blank test erases. */
  lemma {:induction false} CoercedAgreesOnStrings(o: map<string, Json>, path: seq<string>, render: Json -> string)
    requires |path| > 0
    requires StringOrAbsentAt(o, path)
    ensures var c := CoercedAt(o, path, render);
            var s := StringAt(o, path);
            (s.Some? ==> c == s) && (s.None? ==> c.None? || c == Some(""))
  {
    if |path| > 1 && ValueAt(o, path).Some? {
      ValueAtHasObjectParent(o, path);
    }
  }
}
