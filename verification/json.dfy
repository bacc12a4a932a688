/** Just enough of `encoding/json` for the relay adaptors: a JSON document
    as a value tree, and the rules by which `json.Unmarshal` fills a Go
    struct field from it. Unmarshalling into a fresh struct starts from
    zero values; a syntax error fills nothing; a `null` leaves a field
    alone; a value of the wrong JSON type leaves the field alone, records an
    error and decoding carries on with the other fields. */
module Json {
  import opened Options

  datatype Value =
    | Null
    | Bool(b: bool)
      /** an integer literal */
    | Num(n: int)
      /** a number literal with a fraction or exponent */
    | Frac(text: string)
    | Str(s: string)
    | Arr(items: seq<Value>)
    | Obj(fields: map<string, Value>)

  /** A byte slice handed to the decoder: well-formed JSON or not. */
  datatype Doc = Malformed(reason: string) | Json(root: Value)

  /** Why `json.Unmarshal` returned an error: the input is not JSON, or the
      value at `path` (a Go struct field, written `Type.field`) has the
      wrong JSON type. When several fields are wrong the first one in the
      struct's field order is reported. */
  datatype Issue = Syntax(reason: string) | Mismatch(path: string)

  /** The error's text. For a type mismatch the standard library's exact
      wording is not modelled; the text names the offending field. */
  function IssueText(i: Issue): string {
    match i
    case Syntax(reason) => reason
    case Mismatch(path) => "json: cannot unmarshal into Go struct field " + path
  }

  /** Go's `int` is 64 bits wide. */
  const MinInt: int := -0x8000_0000_0000_0000
  const MaxInt: int := 0x7FFF_FFFF_FFFF_FFFF

  /** A decoded value together with the error `json.Unmarshal` returned
      (`None` for nil). The value is what the target holds afterwards, so it
      may be partly filled when there is an error. */
  datatype Decoded<+T> = Decoded(value: T, issue: Option<Issue>) {
    predicate Complete() { issue.None? }
  }

  /** The earlier of two decoding errors. */
  function First(a: Option<Issue>, b: Option<Issue>): (r: Option<Issue>)
    ensures r.None? <==> a.None? && b.None?
    ensures a.Some? ==> r == a
  {
    if a.Some? then a else b
  }

  /** The member `key` of an object, if present. */
  function Member(fields: map<string, Value>, key: string): Value {
    if key in fields then fields[key] else Null
  }

  /** A `string` field. */
  function StringField(v: Value, path: string): (r: Decoded<string>)
    ensures r.Complete() <==> v.Null? || v.Str?
    ensures v.Str? ==> r.value == v.s
    ensures !v.Str? ==> r.value == ""
    ensures !r.Complete() ==> r.issue == Some(Mismatch(path))
  {
    match v
    case Null => Decoded("", None)
    case Str(s) => Decoded(s, None)
    case _ => Decoded("", Some(Mismatch(path)))
  }

  /** An `int` field: an integer literal within 64 bits. */
  function IntField(v: Value, path: string): (r: Decoded<int>)
    ensures r.Complete() <==> v.Null? || (v.Num? && MinInt <= v.n <= MaxInt)
    ensures r.Complete() && v.Num? ==> r.value == v.n
    ensures !(v.Num? && MinInt <= v.n <= MaxInt) ==> r.value == 0
    ensures !r.Complete() ==> r.issue == Some(Mismatch(path))
  {
    match v
    case Null => Decoded(0, None)
    case Num(n) => if MinInt <= n <= MaxInt then Decoded(n, None) else Decoded(0, Some(Mismatch(path)))
    case _ => Decoded(0, Some(Mismatch(path)))
  }

  /** The members of a struct-typed value: an object gives its members, a
      null gives none and no error, anything else gives none and a
      mismatch for the struct itself. */
  function StructMembers(v: Value, path: string): (r: Decoded<map<string, Value>>)
    ensures r.Complete() <==> v.Null? || v.Obj?
    ensures v.Obj? ==> r.value == v.fields
    ensures !v.Obj? ==> r.value == map[]
    ensures !r.Complete() ==> r.issue == Some(Mismatch(path))
  {
    match v
    case Obj(f) => Decoded(f, None)
    case Null => Decoded(map[], None)
    case _ => Decoded(map[], Some(Mismatch(path)))
  }

  /** The members of the top-level value: as `StructMembers`, and a syntax
      error fills nothing. */
  function DocMembers(d: Doc, path: string): (r: Decoded<map<string, Value>>)
    ensures d.Malformed? ==> r == Decoded(map[], Some(Syntax(d.reason)))
    ensures d.Json? ==> r == StructMembers(d.root, path)
  {
    match d
    case Malformed(reason) => Decoded(map[], Some(Syntax(reason)))
    case Json(root) => StructMembers(root, path)
  }

  /** `m[key].(string)` on a decoded `map[string]interface{}`, accepted
      only when it is a non-empty string. */
  function NonEmptyStringMember(m: map<string, Value>, key: string): (r: Option<string>)
    ensures r.Some? <==> key in m && m[key].Str? && m[key].s != ""
    ensures r.Some? ==> m[key] == Str(r.value)
  {
    if key in m && m[key].Str? && m[key].s != "" then Some(m[key].s) else None
  }
}
