/**
 * The JavaScript values a parsed JSON request body can hold, and the few
 * language operations the API applies to them: truthiness, reading a
 * property, assigning one, `Array.isArray`, `toString` and `Object.entries`.
 * An object keeps its fields in `Object.entries` order; `JSON.parse` never
 * repeats a key, and where a key does repeat the model reads and writes the
 * first occurrence. Numbers are integers.
 */
module JsonValue {

  datatype Json =
    | JNull
    | JBool(b: bool)
    | JNum(n: int)
    | JStr(s: string)
    | JArr(items: seq<Json>)
    | JObj(fields: seq<(string, Json)>)

  /** The outcome of reading `v.key`: a `TypeError`, `undefined`, or a value. */
  datatype Read = Throws | Undefined | Found(value: Json)

  /** JavaScript truthiness of a JSON value. */
  predicate Truthy(v: Json) {
    match v
    case JNull => false
    case JBool(b) => b
    case JNum(n) => n != 0
    case JStr(s) => s != ""
    case JArr(_) => true
    case JObj(_) => true
  }

  /**
   * `null`, `false`, `0` and `""` are the only falsy values: every array
   * and every object is truthy, the empty ones included.
   */
  lemma FalsyValues(v: Json)
    ensures !Truthy(v) <==> v == JNull || v == JBool(false) || v == JNum(0) || v == JStr("")
  {
  }

  /** `!!v.key`: `undefined` is falsy; a read that throws never reaches the test. */
  predicate TruthyRead(r: Read) {
    r.Found? && Truthy(r.value)
  }

  /** `Array.isArray(v.key)`. */
  predicate IsArrayRead(r: Read) {
    r.Found? && r.value.JArr?
  }

  function Lookup(fields: seq<(string, Json)>, key: string): (r: Read)
    ensures r != Throws
  {
    if fields == [] then Undefined
    else if fields[0].0 == key then Found(fields[0].1)
    else Lookup(fields[1..], key)
  }

  /** A read finds the value of the first field with that key, and is `undefined` exactly when no field has it. */
  lemma {:induction false} LookupFirst(fields: seq<(string, Json)>, key: string)
    ensures Lookup(fields, key) == Undefined <==> forall i :: 0 <= i < |fields| ==> fields[i].0 != key
    ensures Lookup(fields, key).Found? ==>
      exists i :: 0 <= i < |fields| && fields[i] == (key, Lookup(fields, key).value) && forall j :: 0 <= j < i ==> fields[j].0 != key
  {
    if fields != [] && fields[0].0 != key {
      var rest := fields[1..];
      LookupFirst(rest, key);
      assert forall i :: 1 <= i < |fields| ==> fields[i] == rest[i - 1];
      if Lookup(rest, key).Found? {
        var i :| 0 <= i < |rest| && rest[i] == (key, Lookup(rest, key).value) && forall j :: 0 <= j < i ==> rest[j].0 != key;
        assert fields[i + 1] == rest[i];
      }
    }
  }

  /**
   * `v.key`: reading a property of `null` throws a `TypeError`; strings,
   * numbers, booleans and arrays have none of the properties the API reads.
   */
  function Get(v: Json, key: string): (r: Read)
    ensures r == Throws <==> v == JNull
    ensures r.Found? ==> v.JObj?
  {
    match v
    case JNull => Throws
    case JObj(fields) => Lookup(fields, key)
    case _ => Undefined
  }

  /** `obj.key = value` on an object: the field keeps its position, or is appended when absent. */
  function SetField(fields: seq<(string, Json)>, key: string, value: Json): (r: seq<(string, Json)>)
    ensures Lookup(r, key) == Found(value)
    ensures Lookup(fields, key).Found? ==> |r| == |fields|
  {
    if fields == [] then [(key, value)]
    else if fields[0].0 == key then [(key, value)] + fields[1..]
    else [fields[0]] + SetField(fields[1..], key, value)
  }

  /** Assigning one field leaves every other field as it was. */
  lemma {:induction false} SetFieldElsewhere(fields: seq<(string, Json)>, key: string, value: Json, other: string)
    requires other != key
    ensures Lookup(SetField(fields, key, value), other) == Lookup(fields, other)
  {
    if fields != [] && fields[0].0 != key {
      SetFieldElsewhere(fields[1..], key, value, other);
    }
  }

  function DigitChar(d: int): char
    requires 0 <= d < 10
  {
    "0123456789"[d]
  }

  predicate IsDigit(c: char) {
    '0' <= c <= '9'
  }

  /** The number a string of decimal digits denotes, read left to right. */
  function DigitsValue(s: string): nat
    requires forall i :: 0 <= i < |s| ==> IsDigit(s[i])
    decreases |s|
  {
    if s == [] then 0
    else
      assert IsDigit(s[|s| - 1]);
      DigitsValue(s[..|s| - 1]) * 10 + (s[|s| - 1] as int - '0' as int)
  }

  /** The decimal digits of `n`: at least one, no leading zero, and they denote `n`. */
  function NatText(n: nat): (r: string)
    ensures r != [] && forall i :: 0 <= i < |r| ==> IsDigit(r[i])
    ensures r[0] == '0' ==> n == 0
    ensures DigitsValue(r) == n
  {
    if n < 10 then [DigitChar(n)]
    else
      var init := NatText(n / 10);
      var r := init + [DigitChar(n % 10)];
      assert r[..|r| - 1] == init;
      r
  }

  /**
   * `String(v)` / `v.toString()` for every value except `null`, whose
   * `toString()` throws: a string is itself, an integer its decimal text,
   * an array its items' texts joined with commas (`null` items give the
   * empty text), an object `"[object Object]"`.
   */
  function ToText(v: Json): (r: string)
    ensures v.JStr? ==> r == v.s
    ensures v.JNum? ==> r != [] && (r[0] == '-' <==> v.n < 0)
    ensures v.JNum? && v.n >= 0 ==> (forall i :: 0 <= i < |r| ==> IsDigit(r[i])) && DigitsValue(r) == v.n
    ensures v.JNum? && v.n < 0 ==> (forall i :: 1 <= i < |r| ==> IsDigit(r[i])) && DigitsValue(r[1..]) == -v.n
    ensures v.JBool? ==> r == (if v.b then "true" else "false")
    decreases v, 1
  {
    match v
    case JNull => "null"
    case JBool(b) => if b then "true" else "false"
    case JNum(n) => if n < 0 then "-" + NatText(-n) else NatText(n)
    case JStr(s) => s
    case JArr(items) => ItemsText(items)
    case JObj(_) => "[object Object]"
  }

  /** `Array.prototype.join(',')` applied to the items' texts. */
  function ItemsText(items: seq<Json>): string
    decreases items, 0
  {
    if items == [] then ""
    else
      var first := if items[0] == JNull then "" else ToText(items[0]);
      if |items| == 1 then first else first + "," + ItemsText(items[1..])
  }

  /** The values `Object.entries` lists for an object or an array, in order. */
  function Entries(v: Json): (r: seq<Json>)
    ensures v.JArr? ==> r == v.items
    ensures v.JObj? ==> |r| == |v.fields| && forall i :: 0 <= i < |r| ==> r[i] == v.fields[i].1
  {
    match v
    case JArr(items) => items
    case JObj(fields) => seq(|fields|, i requires 0 <= i < |fields| => fields[i].1)
    case _ => []
  }

  /** The same object or array with its entry values replaced in order, keys kept. */
  function WithEntries(v: Json, values: seq<Json>): (r: Json)
    requires v.JArr? || v.JObj?
    requires |values| == |Entries(v)|
    ensures r.JArr? == v.JArr? && r.JObj? == v.JObj?
    ensures Entries(r) == values
    ensures r.JObj? ==> forall i :: 0 <= i < |values| ==> r.fields[i].0 == v.fields[i].0
  {
    match v
    case JArr(_) => JArr(values)
    case JObj(fields) => JObj(seq(|fields|, i requires 0 <= i < |fields| => (fields[i].0, values[i])))
  }
}
