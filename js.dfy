/** JavaScript values as the bridge sees them after `JSON.parse`, and the few
    language operations the core applies to them: property reads, `typeof`,
    truthiness, `Object.keys` and the UTF-16 `length` of a string. */
module Js {

  datatype Option<+T> = None | Some(value: T)

  /** A value `JSON.parse` can produce. Numbers are modelled as integers: the
      core only asks whether a number is a number and whether it is zero. */
  datatype Json =
    | JNull
    | JBool(b: bool)
    | JNum(n: int)
    | JStr(s: string)
    | JArr(elems: seq<Json>)
    | JObj(fields: map<string, Json>)

  /** What reading a property yields: `undefined`, a JSON value, or a built-in
      method inherited from `Array.prototype`. */
  datatype Value = Undefined | Defined(json: Json) | BuiltinMethod

  /** The answers of `typeof` that the core can meet. */
  datatype TypeTag = TUndefined | TObject | TBoolean | TNumber | TString | TFunction

  /** `JSON.stringify` without indentation; its key order is outside the model. */
  type Stringify = Json -> string

  function TypeOfJson(j: Json): TypeTag
  {
    match j
    case JNull => TObject  // typeof null === 'object'
    case JBool(_) => TBoolean
    case JNum(_) => TNumber
    case JStr(_) => TString
    case JArr(_) => TObject
    case JObj(_) => TObject
  }

  function TypeOf(v: Value): TypeTag
  {
    match v
    case Undefined => TUndefined
    case Defined(j) => TypeOfJson(j)
    case BuiltinMethod => TFunction
  }

  /** JavaScript truthiness: `undefined`, `null`, `false`, `0` and `""` are falsy. */
  predicate Truthy(v: Value)
  {
    match v
    case Undefined => false
    case BuiltinMethod => true
    case Defined(j) =>
      match j
      case JNull => false
      case JBool(b) => b
      case JNum(n) => n != 0
      case JStr(s) => s != ""
      case JArr(_) => true
      case JObj(_) => true
  }

  /** The property names the core reads; `Member` is exact for these. */
  const NamesRead: set<string> :=
    {"v", "q", "collection", "find", "aggregate", "sort", "project", "skip", "limit", "_id"}

  /** The members of `Array.prototype` among `NamesRead`. */
  const ArrayMethodsRead: set<string> := {"find", "sort"}

  /** `base[key]` for a base that is not `null` (reading from `null` throws,
      which callers model before reaching here). */
  function Member(base: Json, key: string): (v: Value)
    requires !base.JNull?
    requires key in NamesRead
  {
    match base
    case JObj(m) => if key in m then Defined(m[key]) else Undefined
    case JArr(_) => if key in ArrayMethodsRead then BuiltinMethod else Undefined
    case _ => Undefined
  }

  /** `Object.keys` of an object or an array (arrays list their indices). */
  function OwnKeys(j: Json): (keys: set<string>)
    requires j.JObj? || j.JArr?
    ensures j.JObj? ==> keys == j.fields.Keys
    ensures j.JArr? ==> forall k :: k in keys ==> IsIndexKey(k)
  {
    match j
    case JObj(m) => m.Keys
    case JArr(s) => set i | 0 <= i < |s| :: DecimalString(i)
  }

  predicate IsIndexKey(k: string)
  {
    |k| > 0 && forall i :: 0 <= i < |k| ==> '0' <= k[i] <= '9'
  }

  /** The decimal numeral of `n`, as `Object.keys` writes an array index. */
  function DecimalString(n: nat): (s: string)
    ensures IsIndexKey(s)
  {
    if n < 10 then [(48 + n) as char]
    else DecimalString(n / 10) + [(48 + n % 10) as char]
  }

  /** No name the core reads is an array index, so `Object.keys` of an array
      never lists one of them. */
  lemma {:induction false} NoIndexKeyIsRead(k: string)
    requires IsIndexKey(k)
    ensures k !in NamesRead
  {
    assert '0' <= k[0] <= '9';
  }

  /** `s.length`: the number of UTF-16 code units of `s`; a character outside
      the Basic Multilingual Plane takes two. */
  function Utf16Length(s: string): (n: nat)
    ensures |s| <= n <= 2 * |s|
    ensures (forall i :: 0 <= i < |s| ==> s[i] as int <= 0xFFFF) ==> n == |s|
  {
    if s == "" then 0
    else (if s[0] as int > 0xFFFF then 2 else 1) + Utf16Length(s[1..])
  }
}
