/**
 * The JavaScript values the connection manager receives from JSON.parse and
 * hands to JSON.stringify, together with the pieces of JavaScript semantics the
 * message router relies on: reading the `type` property, truthiness, and the
 * string a value turns into when it is used as a property key.
 */
module Json {

  /** A JSON value. Numbers are integers; object members keep their property order. */
  datatype Value =
    | JNull
    | JBool(b: bool)
    | JNum(n: int)
    | JStr(s: string)
    | JArr(items: seq<Value>)
    | JObj(members: seq<(string, Value)>)

  /** The outcome of a property read `v.p`: a TypeError on null, undefined, or a value. */
  datatype Prop = Throws | Undefined | Defined(value: Value)

  /** The member named `key`; among duplicates the last one, as JSON.parse keeps it. */
  function LookupMember(members: seq<(string, Value)>, key: string): (r: Prop)
    ensures r.Defined? ==> exists i :: 0 <= i < |members| && members[i] == (key, r.value) &&
                                       (forall j :: i < j < |members| ==> members[j].0 != key)
    ensures !r.Defined? ==> r == Undefined && forall i :: 0 <= i < |members| ==> members[i].0 != key
    decreases |members|
  {
    if |members| == 0 then Undefined
    else
      var last := |members| - 1;
      if members[last].0 == key then Defined(members[last].1)
      else
        var r := LookupMember(members[..last], key);
        assert forall i :: 0 <= i < last ==> members[..last][i] == members[i];
        r
  }

  /** The property read `v.type`. */
  function TypeProperty(v: Value): (r: Prop)
    ensures r == Throws <==> v == JNull
    ensures r.Defined? ==> v.JObj?
  {
    match v
    case JNull => Throws
    case JObj(members) => LookupMember(members, "type")
    case _ => Undefined
  }

  /** JavaScript truthiness of a JSON value. */
  predicate Truthy(v: Value) {
    match v
    case JNull => false
    case JBool(b) => b
    case JNum(n) => n != 0
    case JStr(s) => s != ""
    case _ => true
  }

  const DecimalDigits := "0123456789"

  /** Decimal notation of a natural number, without leading zeros. */
  function Digits(n: nat): (r: string)
    ensures |r| >= 1
    decreases n
  {
    if n < 10 then [DecimalDigits[n]] else Digits(n / 10) + [DecimalDigits[n % 10]]
  }

  predicate IsDecimal(s: string) {
    forall k :: 0 <= k < |s| ==> '0' <= s[k] <= '9'
  }

  /** The number a string of decimal digits denotes. */
  function DecimalValue(s: string): nat
    requires IsDecimal(s)
    decreases |s|
  {
    if s == [] then 0 else DecimalValue(s[..|s| - 1]) * 10 + (s[|s| - 1] as int - '0' as int)
  }

  lemma DigitChar(d: nat)
    requires d < 10
    ensures '0' <= DecimalDigits[d] <= '9' && DecimalDigits[d] as int - '0' as int == d
  {
  }

  /** Digits writes n in decimal: digits only, denoting n, with no leading zero. */
  lemma {:induction false} DigitsDenoteValue(n: nat)
    ensures IsDecimal(Digits(n)) && DecimalValue(Digits(n)) == n
    ensures Digits(n)[0] == '0' ==> n == 0
  {
    DigitChar(n % 10);
    if n >= 10 {
      DigitsDenoteValue(n / 10);
      var d := Digits(n);
      assert d[..|d| - 1] == Digits(n / 10);
      assert d[0] == Digits(n / 10)[0];
    }
  }

  /** Number::toString for an integer value. */
  function IntToString(n: int): string {
    if n < 0 then "-" + Digits(-n) else Digits(n)
  }

  /** The string a value becomes when it is used as a property key (ToString). */
  function PropertyKey(v: Value): string
    decreases v, 1
  {
    match v
    case JNull => "null"
    case JBool(b) => if b then "true" else "false"
    case JNum(n) => IntToString(n)
    case JStr(s) => s
    case JArr(items) => JoinedKeys(v, |items|)
    case JObj(_) => "[object Object]"
  }

  /** Array.prototype.join of the first n elements: null elements become empty. */
  function JoinedKeys(arr: Value, n: nat): string
    requires arr.JArr? && n <= |arr.items|
    decreases arr, 0, n
  {
    if n == 0 then ""
    else
      var e := arr.items[n - 1];
      var k := if e.JNull? then "" else PropertyKey(e);
      if n == 1 then k else JoinedKeys(arr, n - 1) + "," + k
  }

  const HexDigitsLower := "0123456789abcdef"

  /** JSON.stringify's escaping of one character inside a string literal. */
  function EscapeChar(c: char): string {
    if c == '"' then "\\\""
    else if c == '\\' then "\\\\"
    else if c as int == 8 then "\\b"
    else if c as int == 9 then "\\t"
    else if c as int == 10 then "\\n"
    else if c as int == 12 then "\\f"
    else if c as int == 13 then "\\r"
    else if c as int < 0x20 then
      "\\u00" + [HexDigitsLower[c as int / 16], HexDigitsLower[c as int % 16]]
    else [c]
  }

  function Escape(s: string): string {
    if s == [] then "" else EscapeChar(s[0]) + Escape(s[1..])
  }

  /** Characters JSON.stringify copies unchanged into a string literal. */
  predicate IsPlainChar(c: char) {
    c != '"' && c != '\\' && c as int >= 0x20
  }

  lemma {:induction false} EscapePlain(s: string)
    requires forall k :: 0 <= k < |s| ==> IsPlainChar(s[k])
    ensures Escape(s) == s
  {
    if s != [] {
      EscapePlain(s[1..]);
      assert s == [s[0]] + s[1..];
    }
  }

  function Quote(s: string): string {
    "\"" + Escape(s) + "\""
  }

  /** JSON.stringify of a value. */
  function Stringify(v: Value): string
    decreases v, 1
  {
    match v
    case JNull => "null"
    case JBool(b) => if b then "true" else "false"
    case JNum(n) => IntToString(n)
    case JStr(s) => Quote(s)
    case JArr(items) => "[" + StringifyItems(v, |items|) + "]"
    case JObj(members) => "{" + StringifyMembers(v, |members|) + "}"
  }

  function StringifyItems(arr: Value, n: nat): string
    requires arr.JArr? && n <= |arr.items|
    decreases arr, 0, n
  {
    if n == 0 then ""
    else if n == 1 then Stringify(arr.items[0])
    else StringifyItems(arr, n - 1) + "," + Stringify(arr.items[n - 1])
  }

  function StringifyMembers(obj: Value, n: nat): string
    requires obj.JObj? && n <= |obj.members|
    decreases obj, 0, n
  {
    if n == 0 then ""
    else
      var m := obj.members[n - 1];
      var entry := Quote(m.0) + ":" + Stringify(m.1);
      if n == 1 then entry else StringifyMembers(obj, n - 1) + "," + entry
  }

  /** A two-member object is written as its members in order, comma-separated, in braces. */
  lemma PairObject(k1: string, v1: Value, k2: string, v2: Value)
    ensures Stringify(JObj([(k1, v1), (k2, v2)])) ==
      "{" + (Quote(k1) + ":" + Stringify(v1) + "," + (Quote(k2) + ":" + Stringify(v2))) + "}"
  {
    var o := JObj([(k1, v1), (k2, v2)]);
    var first := Quote(k1) + ":" + Stringify(v1);
    var second := Quote(k2) + ":" + Stringify(v2);
    assert o.members[0] == (k1, v1) && o.members[1] == (k2, v2);
    assert StringifyMembers(o, 1) == first;
    assert StringifyMembers(o, 2) == first + "," + second;
  }
}
