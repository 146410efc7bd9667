/** Untyped JavaScript values, as a zod schema or an optional-chaining
    property access receives them. */
module JsValues {

  datatype Option<+T> = None | Some(value: T)

  /** The JavaScript values the core meets. Numbers are kept integral
      (only their type matters here); a `Date` carries its time value in
      milliseconds since the Unix epoch, and `InvalidDate` is a `Date`
      object whose time value is NaN. An object is a finite map from
      property names to values; a missing key reads as `undefined`. */
  datatype JsValue =
    | Undefined
    | Null
    | Bool(b: bool)
    | Num(n: int)
    | Str(s: string)
    | Date(time: int)
    | InvalidDate
    | Arr(items: seq<JsValue>)
    | Obj(fields: map<string, JsValue>)

  /** `fields[key]` on a plain object. */
  function Get(fields: map<string, JsValue>, key: string): (v: JsValue)
    ensures key !in fields ==> v == Undefined
  {
    if key in fields then fields[key] else Undefined
  }

  /** The type name zod reports in "Expected X, received Y" messages. */
  function ParsedType(v: JsValue): string
  {
    match v
    case Undefined => "undefined"
    case Null => "null"
    case Bool(_) => "boolean"
    case Num(_) => "number"
    case Str(_) => "string"
    case Date(_) => "date"
    case InvalidDate => "date"
    case Arr(_) => "array"
    case Obj(_) => "object"
  }

  predicate IsDigit(c: char) { '0' <= c <= '9' }

  /** A property name that addresses an array element: a non-empty run of
      decimal digits without a leading zero (except "0" itself). */
  predicate IsArrayIndex(key: string)
  {
    && |key| > 0
    && (forall i | 0 <= i < |key| :: IsDigit(key[i]))
    && (key[0] == '0' ==> |key| == 1)
  }

  /** The number a run of decimal digits denotes. */
  function DigitsValue(key: string): nat
    requires forall i | 0 <= i < |key| :: IsDigit(key[i])
  {
    if key == [] then 0
    else
      assert IsDigit(key[|key| - 1]);
      10 * DigitsValue(key[..|key| - 1]) + (key[|key| - 1] as int - '0' as int)
  }

  /** The decimal name of an array position. */
  function IndexName(n: nat): (key: string)
    ensures |key| > 0 && forall i | 0 <= i < |key| :: IsDigit(key[i])
  {
    var d := [('0' as int + n % 10) as char];
    if n < 10 then d else IndexName(n / 10) + d
  }

  /** Reading an array element by its decimal name finds that element:
      `IndexName` and `DigitsValue` are inverse. */
  lemma {:induction false} IndexNameRoundTrip(n: nat)
    ensures IsArrayIndex(IndexName(n)) && DigitsValue(IndexName(n)) == n
  {
    var key := IndexName(n);
    var d := [('0' as int + n % 10) as char];
    if n < 10 {
      assert key == d;
    } else {
      IndexNameRoundTrip(n / 10);
      var hi := IndexName(n / 10);
      assert key == hi + d;
      assert key[..|key| - 1] == hi;
      assert key[0] == hi[0];
    }
  }

  /** Property access `obj[key]` on a value that is not null or undefined.
      Plain objects look the key up; arrays answer for canonical index
      names; properties of primitives (a string's `length`, say) and of
      built-in prototypes are not modelled and read as `undefined`. */
  function Property(obj: JsValue, key: string): (v: JsValue)
    ensures obj.Obj? ==> v == Get(obj.fields, key)
    ensures !obj.Obj? && !obj.Arr? ==> v == Undefined
  {
    match obj
    case Obj(fields) => Get(fields, key)
    case Arr(items) =>
      if IsArrayIndex(key) && DigitsValue(key) < |items| then items[DigitsValue(key)] else Undefined
    case _ => Undefined
  }
}
