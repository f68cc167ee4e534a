/**
 * Values as the JavaScript handlers (and the Python relay) see them after
 * `JSON.parse`, together with the few JavaScript / Python idioms the
 * signaling code relies on: property access, truthiness, `a || b`,
 * `String(v)` and `String.prototype.includes`.
 */
module Json {

  datatype Option<+T> = None | Some(value: T)

  /** A JSON value, plus `undefined` for a property that is not there. */
  datatype Json =
    | JUndefined
    | JNull
    | JBool(b: bool)
    | JNum(n: int)
    | JStr(s: string)
    | JArr(items: seq<Json>)
    | JObj(fields: map<string, Json>)

  /** `v.key` in JavaScript; on a non-object, or for a missing key, this is `undefined`. */
  function Get(v: Json, key: string): Json
  {
    if v.JObj? && key in v.fields then v.fields[key] else JUndefined
  }

  /** `null` and `undefined`: reading a property of one of them throws a TypeError. */
  predicate Nullish(v: Json)
  {
    v == JUndefined || v == JNull
  }

  /** JavaScript truthiness (numbers are integers here, so NaN and -0 do not arise). */
  predicate Truthy(v: Json)
  {
    match v
    case JUndefined => false
    case JNull => false
    case JBool(b) => b
    case JNum(n) => n != 0
    case JStr(s) => s != ""
    case JArr(_) => true
    case JObj(_) => true
  }

  /** Python truthiness: unlike JavaScript, empty lists and empty dicts are false. */
  predicate PyTruthy(v: Json)
  {
    match v
    case JUndefined => false
    case JNull => false
    case JBool(b) => b
    case JNum(n) => n != 0
    case JStr(s) => s != ""
    case JArr(items) => items != []
    case JObj(fields) => fields != map[]
  }

  /** JavaScript `a || b`. */
  function Or(a: Json, b: Json): (r: Json)
    ensures Truthy(a) ==> r == a
    ensures !Truthy(a) ==> r == b
  {
    if Truthy(a) then a else b
  }

  /** Decimal digits of a natural number, as `String(n)` writes them. */
  function Decimal(n: nat): (r: string)
    decreases n
  {
    if n < 10 then [DigitChar(n)] else Decimal(n / 10) + [DigitChar(n % 10)]
  }

  function DigitChar(d: nat): char
    requires d < 10
  {
    (48 + d) as char
  }

  /** JavaScript `String(v)` (and template-literal interpolation). */
  function ToStr(v: Json): string
    decreases v
  {
    match v
    case JUndefined => "undefined"
    case JNull => "null"
    case JBool(b) => if b then "true" else "false"
    case JNum(n) => if n < 0 then "-" + Decimal(-n) else Decimal(n)
    case JStr(s) => s
    case JArr(items) => JoinItems(v, 0)
    case JObj(_) => "[object Object]"
  }

  /** `Array.prototype.join(',')` from index `i` on; `null` and `undefined` items print as "". */
  function JoinItems(arr: Json, i: nat): string
    requires arr.JArr?
    requires i <= |arr.items|
    decreases arr, |arr.items| - i
  {
    if i == |arr.items| then ""
    else
      var item := arr.items[i];
      var text := if Nullish(item) then "" else ToStr(item);
      (if i == 0 then "" else ",") + text + JoinItems(arr, i + 1)
  }

  /** `s.includes(sub)`. */
  predicate Contains(s: string, sub: string)
    decreases |s|
  {
    if |sub| > |s| then false
    else s[..|sub|] == sub || Contains(s[1..], sub)
  }

  // ---------------------------------------------------------------------
  // Sequences used as insertion-ordered sets (`Set`, Python dict keys)

  /** No element occurs twice. */
  predicate NoDup<T(==)>(s: seq<T>)
  {
    forall i, j | 0 <= i < j < |s| :: s[i] != s[j]
  }

  /** `s` without `c` (`Set.prototype.delete`), order kept. */
  function Without<T(==)>(s: seq<T>, c: T): (r: seq<T>)
    ensures forall x | x in r :: x in s && x != c
    ensures forall x | x in s && x != c :: x in r
    ensures NoDup(s) ==> NoDup(r)
    ensures |r| <= |s|
    decreases |s|
  {
    if s == [] then []
    else
      var rest := Without(s[1..], c);
      assert NoDup(s) ==> NoDup(s[1..]) && s[0] !in s[1..] by {
        if NoDup(s) {
          forall k | 0 <= k < |s[1..]| ensures s[1..][k] != s[0] {
            assert s[1..][k] == s[k + 1];
          }
        }
      }
      (if s[0] == c then [] else [s[0]]) + rest
  }

  /** `Set.prototype.add`: appended unless already present. */
  function With<T(==)>(s: seq<T>, c: T): (r: seq<T>)
  {
    if c in s then s else s + [c]
  }

}
