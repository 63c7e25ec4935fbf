/**
 * JSON values as JavaScript sees them after `JSON.parse`, with the three
 * language rules the relay and its client lean on: truthiness, property
 * access (`v.key`, `v?.key`) and conversion to a string (`String(v)`,
 * template literals). An absent property, JavaScript's `undefined`, is `None`.
 */
module JsValues {
  import opened Wrappers

  /** JSON numbers are modelled as integers. */
  datatype Json =
    | JNull
    | JBool(b: bool)
    | JNum(n: int)
    | JStr(s: string)
    | JArr(elems: seq<Json>)
    | JObj(fields: map<string, Json>)

  /** JavaScript truthiness: `undefined`, `null`, `false`, `0` and `""` are falsy. */
  predicate Truthy(v: Option<Json>) {
    match v
    case None => false
    case Some(JNull) => false
    case Some(JBool(b)) => b
    case Some(JNum(n)) => n != 0
    case Some(JStr(s)) => s != ""
    case Some(JArr(_)) => true
    case Some(JObj(_)) => true
  }

  function DigitChar(d: nat): char
    requires d < 10
  {
    ('0' as int + d) as char
  }

  predicate IsDigit(c: char) {
    '0' <= c <= '9'
  }

  function DigitValue(c: char): nat
    requires IsDigit(c)
  {
    c as int - '0' as int
  }

  /** The decimal form of `n`, as `String(n)` writes it. */
  function NatToString(n: nat): (r: string)
    ensures |r| > 0
    ensures forall i :: 0 <= i < |r| ==> IsDigit(r[i])
    ensures |r| > 1 ==> r[0] != '0'
  {
    if n < 10 then [DigitChar(n)] else NatToString(n / 10) + [DigitChar(n % 10)]
  }

  function IntToString(i: int): string {
    if i < 0 then "-" + NatToString(-i) else NatToString(i)
  }

  /** The value of a string of decimal digits. */
  function DigitsValue(s: string): nat
    requires forall i :: 0 <= i < |s| ==> IsDigit(s[i])
  {
    if s == [] then 0 else DigitsValue(s[..|s| - 1]) * 10 + DigitValue(s[|s| - 1])
  }

  /** A canonical array index: a non-empty string of digits without a leading zero. */
  predicate IsCanonicalIndex(key: string) {
    && |key| > 0
    && (forall i :: 0 <= i < |key| ==> IsDigit(key[i]))
    && (|key| > 1 ==> key[0] != '0')
  }

  /** The array index a property key names, if it names one. */
  function ParseIndex(key: string): Option<nat> {
    if IsCanonicalIndex(key) then Some(DigitsValue(key)) else None
  }

  /**
   * `v.key` on a value that is neither `undefined` nor `null`. Members that a
   * value inherits from its prototype are not modelled, except `length`.
   */
  function Property(v: Json, key: string): Option<Json>
    requires v != JNull
  {
    match v
    case JObj(m) => if key in m then Some(m[key]) else None
    case JArr(xs) =>
      (match ParseIndex(key)
       case Some(i) => if i < |xs| then Some(xs[i]) else None
       case None => if key == "length" then Some(JNum(|xs|)) else None)
    case JStr(s) =>
      (match ParseIndex(key)
       case Some(i) => if i < |s| then Some(JStr([s[i]])) else None
       case None => if key == "length" then Some(JNum(|s|)) else None)
    case _ => None
  }

  /** `v.key`: reading a property of `undefined` or `null` throws a TypeError. */
  function Get(v: Option<Json>, key: string): (r: Result<Option<Json>, string>)
    ensures r.Failure? <==> v == None || v == Some(JNull)
    ensures r.Success? ==> r.value == Property(v.value, key)
  {
    match v
    case None => Failure("Cannot read properties of undefined (reading '" + key + "')")
    case Some(JNull) => Failure("Cannot read properties of null (reading '" + key + "')")
    case Some(x) => Success(Property(x, key))
  }

  /** `v?.key`: `undefined` when `v` is `undefined` or `null`, otherwise `v.key`. */
  function OptionalGet(v: Option<Json>, key: string): (r: Option<Json>)
    ensures v == None || v == Some(JNull) ==> r == None
    ensures Get(v, key).Success? ==> r == Get(v, key).value
  {
    match v
    case None => None
    case Some(JNull) => None
    case Some(x) => Property(x, key)
  }

  /** V8's TypeError for converting an object whose `toString` is not a function. */
  const NoPrimitiveMessage := "Cannot convert object to primitive value"

  /**
   * `v` is, or holds inside arrays, an object with its own `toString`
   * member. A JSON value is never a function, so such an object has no
   * callable `toString`, and its inherited `valueOf` gives back the object
   * itself: converting it to a string throws.
   */
  predicate HasOwnToString(v: Json) {
    match v
    case JObj(m) => "toString" in m
    case JArr(xs) => exists i :: 0 <= i < |xs| && HasOwnToString(xs[i])
    case _ => false
  }

  /**
   * `String(v)` and template literals: an array is its elements joined with
   * commas, an object `[object Object]`. The conversion throws exactly on an
   * object with its own `toString`, at the top or inside arrays, and a
   * string converts to itself.
   */
  function ToJsString(v: Json): (r: Result<string, string>)
    ensures r.Failure? <==> HasOwnToString(v)
    ensures r.Failure? ==> r.error == NoPrimitiveMessage
    ensures v.JStr? ==> r == Success(v.s)
    decreases v, 1
  {
    match v
    case JNull => Success("null")
    case JBool(b) => Success(if b then "true" else "false")
    case JNum(n) => Success(IntToString(n))
    case JStr(s) => Success(s)
    case JArr(xs) => JoinFrom(v, 0)
    case JObj(m) => if "toString" in m then Failure(NoPrimitiveMessage) else Success("[object Object]")
  }

  /**
   * The elements of the array `v` from index `i` on, as `Array.prototype.join`
   * writes them (`null` as the empty string); the first element whose
   * conversion throws makes the whole join throw.
   */
  function JoinFrom(v: Json, i: nat): (r: Result<string, string>)
    requires v.JArr? && i <= |v.elems|
    ensures r.Failure? <==> exists j :: i <= j < |v.elems| && HasOwnToString(v.elems[j])
    ensures r.Failure? ==> r.error == NoPrimitiveMessage
    decreases v, 0, |v.elems| - i
  {
    if i == |v.elems| then Success("")
    else
      var e := v.elems[i];
      var text :- if e == JNull then Success("") else ToJsString(e);
      if i + 1 == |v.elems| then Success(text)
      else
        var rest :- JoinFrom(v, i + 1);
        Success(text + "," + rest)
  }

  lemma {:induction false} DigitsValueOfNatToString(n: nat)
    ensures DigitsValue(NatToString(n)) == n
  {
    if n >= 10 {
      var a := NatToString(n / 10);
      var r := NatToString(n);
      assert r == a + [DigitChar(n % 10)];
      assert r[..|r| - 1] == a;
      DigitsValueOfNatToString(n / 10);
    }
  }

  /** Writing an index and reading it back gives the index. */
  lemma NatToStringRoundTrip(n: nat)
    ensures ParseIndex(NatToString(n)) == Some(n)
  {
    DigitsValueOfNatToString(n);
  }

  lemma {:induction false} LeadingDigitBound(s: string)
    requires IsCanonicalIndex(s) && |s| > 1
    ensures DigitsValue(s) >= 10
    decreases |s|
  {
    var a := s[..|s| - 1];
    assert forall i :: 0 <= i < |a| ==> IsDigit(a[i]);
    if |a| > 1 {
      assert IsCanonicalIndex(a);
      LeadingDigitBound(a);
    } else {
      assert a[0] == s[0];
    }
  }

  /** Every canonical index is the decimal form of the number it names. */
  lemma {:induction false} ParseIndexCanonical(key: string)
    requires ParseIndex(key).Some?
    ensures NatToString(ParseIndex(key).value) == key
    decreases |key|
  {
    var n := DigitsValue(key);
    if |key| > 1 {
      var a := key[..|key| - 1];
      assert key == a + [key[|key| - 1]];
      assert forall i :: 0 <= i < |a| ==> IsDigit(a[i]);
      if |a| > 1 {
        assert a[0] == key[0];
        LeadingDigitBound(a);
      } else {
        assert a[0] == key[0];
      }
      assert IsCanonicalIndex(a);
      ParseIndexCanonical(a);
      assert n / 10 == DigitsValue(a) && n % 10 == DigitValue(key[|key| - 1]);
    }
  }

  /** A falsy value has no property other than a string's `length`, so `v?.key` is `undefined`. */
  lemma FalsyHasNoMembers(v: Option<Json>, key: string)
    requires !Truthy(v) && key != "length"
    ensures OptionalGet(v, key) == None
  {
  }

  /** Reading the property named by the decimal form of `i` gives the element at `i`. */
  lemma ArrayElement(xs: seq<Json>, i: nat)
    requires i < |xs|
    ensures Property(JArr(xs), NatToString(i)) == Some(xs[i])
  {
    NatToStringRoundTrip(i);
  }
}
