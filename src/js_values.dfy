/** The JavaScript values the loader inspects: option objects, plugin lists,
    loader parameters, source maps and configuration records, together with
    the three pieces of language semantics the loader's branches rest on:
    truthiness, property reads (`v.key`, `v[key]`) and the `||` operator. */
module JsValues {

  datatype Option<T> = None | Some(value: T)

  /** A JavaScript value. Numbers are integers here. A function value carries
      its source text, which is what it becomes when used as a property key. */
  datatype JsValue =
    | Undefined
    | Null
    | Bool(b: bool)
    | Num(n: int)
    | Str(s: string)
    | Arr(items: seq<JsValue>)
    | Obj(fields: map<string, JsValue>)
    | Func(source: string)

  /** A thrown exception, as a `catch` handler sees it: `name` is what the
      loader's error routing inspects. */
  datatype JsError = JsError(name: string, message: string)

  /** The outcome of a step that may throw (or a promise that may reject). */
  datatype Result<T> = Ok(value: T) | Err(error: JsError)

  /** What reading a property of `undefined` or `null` throws. */
  const NullishRead := JsError("TypeError", "Cannot read property of undefined or null")

  predicate Nullish(v: JsValue) {
    v.Undefined? || v.Null?
  }

  /** ToBoolean: the six falsy values are undefined, null, false, 0, "" (and
      NaN, which integers cannot be). */
  predicate Truthy(v: JsValue) {
    match v
    case Undefined => false
    case Null => false
    case Bool(b) => b
    case Num(n) => n != 0
    case Str(s) => s != ""
    case _ => true
  }

  /** `a || b`: the first operand when it is truthy, the second otherwise. */
  function Or(a: JsValue, b: JsValue): (r: JsValue)
    ensures Truthy(r) <==> Truthy(a) || Truthy(b)
    ensures r == a || r == b
  {
    if Truthy(a) then a else b
  }

  /** A property read `v[key]` with `key` already converted to a string.
      Plain objects yield their own fields; arrays and strings their canonical
      index keys and `length`; every other property reads as undefined.
      Reading any property of undefined or null throws a TypeError. */
  function Get(v: JsValue, key: string): (r: Result<JsValue>)
    ensures r.Err? <==> Nullish(v)
    ensures r.Err? ==> r.error == NullishRead
    ensures v.Obj? ==> r == Ok(if key in v.fields then v.fields[key] else Undefined)
  {
    match v
    case Undefined => Err(NullishRead)
    case Null => Err(NullishRead)
    case Obj(fields) => Ok(if key in fields then fields[key] else Undefined)
    case Arr(items) =>
      if key == "length" then Ok(Num(|items|))
      else (match CanonicalIndex(key)
            case Some(i) => Ok(if i < |items| then items[i] else Undefined)
            case None => Ok(Undefined))
    case Str(s) =>
      if key == "length" then Ok(Num(|s|))
      else (match CanonicalIndex(key)
            case Some(i) => Ok(if i < |s| then Str([s[i]]) else Undefined)
            case None => Ok(Undefined))
    case _ => Ok(Undefined)
  }

  /** The own enumerable properties `Object.assign` copies from a source:
      the fields of a plain object; nothing from undefined, null or a
      primitive. */
  function OwnProps(v: JsValue): map<string, JsValue> {
    if v.Obj? then v.fields else map[]
  }

  /** A field of a plain object given as its map (`params.key`). */
  function Lookup(fields: map<string, JsValue>, key: string): JsValue {
    if key in fields then fields[key] else Undefined
  }

  /** ToPropertyKey: the string a value stands for in `obj[value]`. */
  function ToKey(v: JsValue): string
    decreases v
  {
    match v
    case Undefined => "undefined"
    case Null => "null"
    case Bool(b) => if b then "true" else "false"
    case Num(n) => IntToString(n)
    case Str(s) => s
    case Arr(items) => JoinKeys(items)
    case Obj(_) => "[object Object]"
    case Func(source) => source
  }

  /** `Array.prototype.join(",")`, where undefined and null elements become "". */
  function JoinKeys(items: seq<JsValue>): string
    decreases items
  {
    if |items| == 0 then ""
    else
      var head := if Nullish(items[0]) then "" else ToKey(items[0]);
      if |items| == 1 then head else head + "," + JoinKeys(items[1..])
  }

  predicate IsDigit(c: char) {
    '0' <= c <= '9'
  }

  predicate AllDigits(s: string) {
    forall i :: 0 <= i < |s| ==> IsDigit(s[i])
  }

  /** The value of a string of decimal digits. */
  function DigitsValue(s: string): nat
    requires AllDigits(s)
  {
    if |s| == 0 then 0
    else 10 * DigitsValue(s[..|s| - 1]) + (s[|s| - 1] as int - '0' as int)
  }

  /** The array index a property key names: a non-empty digit string without
      a leading zero (other than "0" itself). */
  function CanonicalIndex(key: string): Option<nat> {
    if |key| == 0 || !AllDigits(key) || (key[0] == '0' && |key| > 1) then None
    else Some(DigitsValue(key))
  }

  function NatToString(n: nat): (s: string)
    decreases n
  {
    var digit := ['0' + (n % 10) as char];
    if n < 10 then digit else NatToString(n / 10) + digit
  }

  function IntToString(n: int): string {
    if n < 0 then "-" + NatToString(-n) else NatToString(n)
  }

  /** The decimal text of a natural number is a canonical index key that
      reads back as that number. */
  lemma {:induction false} NatToStringIsCanonical(n: nat)
    ensures |NatToString(n)| > 0 && AllDigits(NatToString(n))
    ensures NatToString(n)[0] == '0' ==> n == 0
    ensures CanonicalIndex(NatToString(n)) == Some(n)
    decreases n
  {
    var s := NatToString(n);
    if n >= 10 {
      NatToStringIsCanonical(n / 10);
      var prefix := NatToString(n / 10);
      assert s == prefix + ['0' + (n % 10) as char];
      assert s[..|s| - 1] == prefix;
      assert s[0] == prefix[0];
      assert (s[|s| - 1] as int) - ('0' as int) == n % 10;
      assert DigitsValue(s) == 10 * DigitsValue(prefix) + n % 10;
      assert AllDigits(s) && s[0] != '0';
    } else {
      assert (s[0] as int) - ('0' as int) == n;
      assert DigitsValue(s) == n;
    }
  }

  /** `xs[i]` with a numeric key selects the i-th element of an array. */
  lemma NumericKeySelectsElement(xs: seq<JsValue>, i: nat)
    requires i < |xs|
    ensures Get(Arr(xs), ToKey(Num(i))) == Ok(xs[i])
  {
    NatToStringIsCanonical(i);
    assert NatToString(i) != "length" by {
      assert "length"[0] == 'l';
    }
  }
}
