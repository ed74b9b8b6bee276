/**
 * JSON-like values as the request layer handles them, and the two value helpers of
 * src/network/RequestUtils.ts: `isEmpty` and the recursive `deepClone`.
 */
module Json {

  /**
   * A JavaScript value as far as the request layer can observe it. Numbers are integral;
   * objects are plain objects whose own enumerable keys are the keys of the map.
   */
  datatype Json =
    | Null
    | Undefined
    | Bool(b: bool)
    | Number(n: int)
    | Str(s: string)
    | Array(items: seq<Json>)
    | Object(fields: map<string, Json>)

  /** JavaScript's `typeof`. */
  function TypeOf(v: Json): string {
    match v
    case Undefined => "undefined"
    case Bool(_) => "boolean"
    case Number(_) => "number"
    case Str(_) => "string"
    case _ => "object"
  }

  /** The loose comparison `v == null`, which also holds for `undefined`. */
  predicate LooselyNull(v: Json) {
    v.Null? || v.Undefined?
  }

  /** JavaScript truthiness, as `x || default` and `if (x)` test it. */
  predicate Truthy(v: Json) {
    match v
    case Null => false
    case Undefined => false
    case Bool(b) => b
    case Number(n) => n != 0
    case Str(s) => s != ""
    case _ => true
  }

  /** RequestUtils.isEmpty: `obj == null || typeof obj === "undefined" || obj === ""`. */
  function IsEmpty(v: Json): (r: bool)
    ensures r <==> v == Null || v == Undefined || v == Str("")
  {
    LooselyNull(v) || TypeOf(v) == "undefined" || v == Str("")
  }

  /** Strings made of zeros or blanks, the number 0 and `false` are not empty. */
  lemma NotEmptyExamples()
    ensures !IsEmpty(Str("0")) && !IsEmpty(Str(" ")) && !IsEmpty(Number(0)) && !IsEmpty(Bool(false))
    ensures !IsEmpty(Array([])) && !IsEmpty(Object(map[]))
  {
  }

  /**
   * RequestUtils.deepClone: scalars are returned as they are, an array is rebuilt element by
   * element and an object key by key, each part cloned recursively. On values the clone is
   * the value itself.
   */
  method DeepClone(data: Json) returns (r: Json)
    ensures r == data
    decreases data
  {
    match data
    case Array(items) =>
      var obj: seq<Json> := [];
      var i := 0;
      while i < |items|
        invariant 0 <= i <= |items|
        invariant obj == items[..i]
      {
        var c := DeepClone(items[i]);
        obj := obj + [c];
        i := i + 1;
      }
      assert items[..|items|] == items;
      r := Array(obj);
    case Object(fields) =>
      var obj: map<string, Json> := map[];
      var keys := fields.Keys;
      while keys != {}
        invariant keys <= fields.Keys
        invariant obj == map k | k in fields.Keys - keys :: fields[k]
        decreases keys
      {
        var k :| k in keys;
        var c := DeepClone(fields[k]);
        obj := obj[k := c];
        keys := keys - {k};
      }
      r := Object(obj);
    case _ =>
      r := data;
  }
}
