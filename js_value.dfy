/** The dynamic JavaScript values the library passes around (user inputs,
    query parameters, hook arguments), JavaScript truthiness and `typeof`,
    and the two helpers of `src/utils.ts`. */
module JsValue {
  import Text

  datatype Option<T> = None | Some(value: T)

  /** A computation that returns a value or throws an `Error` with a message. */
  datatype Result<T> = Ok(value: T) | Err(error: string)

  /** A step that returns nothing or throws an `Error` with a message. */
  datatype Outcome = Pass | Fail(error: string)

  /** Steps run in order until one throws: the first error, or `Pass`
      when every step passes. */
  function FirstError(outcomes: seq<Outcome>): Outcome
  {
    if |outcomes| == 0 then Pass
    else if outcomes[0].Fail? then outcomes[0]
    else FirstError(outcomes[1..])
  }

  /** The steps pass exactly when each one passes, and an error is the
      error of some step all of whose predecessors passed. */
  lemma {:induction false} FirstErrorMeaning(outcomes: seq<Outcome>)
    ensures FirstError(outcomes) == Pass <==> forall i :: 0 <= i < |outcomes| ==> outcomes[i] == Pass
    ensures FirstError(outcomes).Fail? ==>
      exists i :: (0 <= i < |outcomes| && outcomes[i] == FirstError(outcomes)
        && forall j :: 0 <= j < i ==> outcomes[j] == Pass)
  {
    if |outcomes| > 0 {
      var rest := outcomes[1..];
      FirstErrorMeaning(rest);
      assert forall i :: 1 <= i < |outcomes| ==> outcomes[i] == rest[i - 1];
      if outcomes[0].Pass? && FirstError(rest).Fail? {
        var k :| 0 <= k < |rest| && rest[k] == FirstError(rest) && forall j :: 0 <= j < k ==> rest[j] == Pass;
        assert outcomes[k + 1] == rest[k];
      }
    }
  }

  /** After steps that all passed, the next step decides. */
  lemma {:induction false} FirstErrorNext(outcomes: seq<Outcome>, i: nat)
    requires i < |outcomes| && FirstError(outcomes[..i]) == Pass
    ensures FirstError(outcomes[..i + 1]) == outcomes[i]
  {
    if i > 0 {
      assert outcomes[..i + 1][1..] == outcomes[1..][..i];
      assert outcomes[..i][1..] == outcomes[1..][..i - 1];
      FirstErrorNext(outcomes[1..], i - 1);
    }
  }

  /** Once a step fails, the later steps do not run. */
  lemma {:induction false} FirstErrorStops(outcomes: seq<Outcome>, k: nat)
    requires k <= |outcomes| && FirstError(outcomes[..k]).Fail?
    ensures FirstError(outcomes) == FirstError(outcomes[..k])
  {
    if outcomes[0].Pass? {
      assert outcomes[..k][1..] == outcomes[1..][..k - 1];
      FirstErrorStops(outcomes[1..], k - 1);
    }
  }

  /** A JavaScript value. Numbers are integers; a function value is known only
      by an identity, since its body is arbitrary caller code. An object is
      its own enumerable string-keyed properties. */
  datatype Value =
    | Undef
    | Null
    | Bool(b: bool)
    | Num(n: int)
    | Str(s: string)
    | Obj(fields: map<string, Value>)
    | Arr(items: seq<Value>)
    | Func(id: nat)

  /** JavaScript truthiness: `undefined`, `null`, `false`, `0` and `""` are
      falsy; objects, arrays and functions are truthy even when empty. */
  predicate Truthy(v: Value)
  {
    match v
    case Undef => false
    case Null => false
    case Bool(b) => b
    case Num(n) => n != 0
    case Str(s) => s != ""
    case _ => true
  }

  /** The `typeof` operator; note that `typeof null` is "object". */
  function TypeOf(v: Value): string
  {
    match v
    case Undef => "undefined"
    case Null => "object"
    case Bool(_) => "boolean"
    case Num(_) => "number"
    case Str(_) => "string"
    case Obj(_) => "object"
    case Arr(_) => "object"
    case Func(_) => "function"
  }

  /** `isObject(obj)`: `obj !== null && typeof obj === 'object'`. True exactly
      for plain objects and arrays. */
  function IsObject(v: Value): (r: bool)
    ensures r <==> v.Obj? || v.Arr?
    ensures v == Null ==> !r
  {
    v != Null && TypeOf(v) == "object"
  }

  /** `callIfFunction(callback)`: the callback itself when it is a function,
      `undefined` otherwise. */
  function CallIfFunction(callback: Value): (r: Value)
    ensures callback.Func? ==> r == callback
    ensures !callback.Func? ==> r == Undef
  {
    if TypeOf(callback) == "function" then callback else Undef
  }

  /** The decimal texts of the indexes below `n`. */
  function IndexKeys(n: nat): set<string>
  {
    set i | 0 <= i < n :: Text.NatToString(i)
  }

  /** The own enumerable entries of an array, keyed by the decimal text of
      their indexes (`Object.entries([a, b])` is `[["0", a], ["1", b]]`). */
  function IndexedEntries(items: seq<Value>): (r: map<string, Value>)
    ensures forall i :: 0 <= i < |items| ==> Text.NatToString(i) in r && r[Text.NatToString(i)] == items[i]
    ensures forall k :: k in r ==> k in IndexKeys(|items|)
    decreases |items|
  {
    if |items| == 0 then map[]
    else
      var n := |items| - 1;
      var prev := IndexedEntries(items[..n]);
      assert forall i :: 0 <= i < n ==> Text.NatToString(i) != Text.NatToString(n) by {
        forall i | 0 <= i < n ensures Text.NatToString(i) != Text.NatToString(n) {
          if Text.NatToString(i) == Text.NatToString(n) {
            Text.NatToStringInjective(i, n);
          }
        }
      }
      prev[Text.NatToString(n) := items[n]]
  }

  /** The own enumerable entries `Object.entries` lists: the properties of a
      plain object, the indexed elements of an array, none for anything else
      the library passes it. */
  function OwnEntries(v: Value): (r: map<string, Value>)
    ensures v.Obj? ==> r == v.fields
    ensures !v.Obj? && !v.Arr? ==> r == map[]
  {
    match v
    case Obj(fields) => fields
    case Arr(items) => IndexedEntries(items)
    case _ => map[]
  }

  /** Property access `v[key]` on an own property; a missing one reads as
      `undefined`. */
  function Get(v: Value, key: string): (r: Value)
    ensures key !in OwnEntries(v) ==> r == Undef
    ensures v.Obj? && key in v.fields ==> r == v.fields[key]
  {
    var entries := OwnEntries(v);
    if key in entries then entries[key] else Undef
  }
}
