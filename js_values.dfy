/** The JavaScript values that `JSON.parse` and `req.json()` produce, with the
    three operations the edge function applies to them: truthiness (for `||`,
    `&&` and `!`), property access (which throws on `null` and `undefined`) and
    conversion to a string (the first step of `parseInt`). Numbers are integers. */
module JsValues {
  import opened Wrappers
  import opened JsStrings

  datatype JSValue =
    | Undefined
    | Null
    | Bool(b: bool)
    | Num(n: int)
    | Str(s: string)
    | Arr(items: seq<JSValue>)
    | Obj(fields: map<string, JSValue>)

  /** How a JavaScript computation ended: with a value, or by throwing. */
  datatype Completion<+T> = Normal(value: T) | Throw

  predicate IsNullish(v: JSValue) {
    v.Undefined? || v.Null?
  }

  /** ToBoolean (section 7.1.2 of ECMA-262): `undefined`, `null`, `false`, `0` and
      the empty string are falsy, everything else is truthy. */
  predicate Truthy(v: JSValue)
    ensures IsNullish(v) ==> !Truthy(v)
    ensures v.Arr? || v.Obj? ==> Truthy(v)
  {
    match v
    case Undefined => false
    case Null => false
    case Bool(b) => b
    case Num(n) => n != 0
    case Str(s) => s != ""
    case Arr(_) => true
    case Obj(_) => true
  }

  /** `a || b`. */
  function Or(a: JSValue, b: JSValue): JSValue {
    if Truthy(a) then a else b
  }

  /** `v.key` on a value that is neither `null` nor `undefined`: an own member of
      an object, the `length` of an array or string, `undefined` otherwise. */
  function Member(v: JSValue, key: string): (r: JSValue)
    requires !IsNullish(v)
    ensures v.Obj? ==> r == (if key in v.fields then v.fields[key] else Undefined)
    ensures !v.Obj? && key != "length" ==> r == Undefined
  {
    match v
    case Obj(m) => if key in m then m[key] else Undefined
    case Arr(items) => if key == "length" then Num(|items|) else Undefined
    case Str(s) => if key == "length" then Num(|s|) else Undefined
    case _ => Undefined
  }

  /** `v[0]` on a value that is neither `null` nor `undefined`. */
  function Element0(v: JSValue): JSValue
    requires !IsNullish(v)
  {
    match v
    case Arr(items) => if |items| > 0 then items[0] else Undefined
    case Str(s) => if |s| > 0 then Str([s[0]]) else Undefined
    case Obj(m) => if "0" in m then m["0"] else Undefined
    case _ => Undefined
  }

  /** `v > 0` for the values a `length` member can hold here: a number, or a
      boolean converted to 0 or 1. */
  predicate IsPositive(v: JSValue) {
    match v
    case Num(n) => n > 0
    case Bool(b) => b
    case _ => false
  }

  /** ToString throws a TypeError on an object with an own `toString` member:
      parsed JSON can only give it a value that is not callable, so neither it nor
      the inherited `valueOf` yields a primitive (OrdinaryToPrimitive, section
      7.1.1.1 of ECMA-262). An array throws when one of its elements does. */
  predicate ToStringThrows(v: JSValue)
    ensures ToStringThrows(v) ==> v.Obj? || v.Arr?
  {
    match v
    case Obj(m) => "toString" in m
    case Arr(items) => exists i :: 0 <= i < |items| && !IsNullish(items[i]) && ToStringThrows(items[i])
    case _ => false
  }

  /** ToString (section 7.1.17 of ECMA-262) where it does not throw; an array is
      joined with commas, its `null` and `undefined` elements read as empty
      strings. */
  function ToString(v: JSValue): (r: string)
    ensures v.Str? ==> r == v.s
    ensures v.Num? ==> ParseInt(r) == Some(v.n)
    decreases v, 1, 0
  {
    match v
    case Undefined => "undefined"
    case Null => "null"
    case Bool(b) => if b then "true" else "false"
    case Num(n) => ParseIntOfIntString(n); IntToString(n)
    case Str(s) => s
    case Arr(items) => JoinElements(v, 0)
    case Obj(_) => "[object Object]"
  }

  /** `Array.prototype.join(",")` over the elements from index `i` on. */
  function JoinElements(v: JSValue, i: nat): string
    requires v.Arr? && i <= |v.items|
    decreases v, 0, |v.items| - i
  {
    if i == |v.items| then ""
    else
      var e := v.items[i];
      var part := if IsNullish(e) then "" else ToString(e);
      if i + 1 == |v.items| then part else part + "," + JoinElements(v, i + 1)
  }

  /** A one-element array converts to a string as its element does, so
      `parseInt(["85"])` reads 85. */
  lemma SingletonArrayString(e: JSValue)
    requires !IsNullish(e)
    ensures ToString(Arr([e])) == ToString(e)
  {
  }
}
