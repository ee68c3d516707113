/** JSON-like values as the services receive them from `response.json()`,
    and object spread (`{ ...x }`), the only operation the model applies
    to them. Numbers are integers here. */
module JsValues {
  import opened Strings

  datatype Value =
    | Null
    | Bool(b: bool)
    | Num(n: int)
    | Str(s: string)
    | Arr(items: seq<Value>)
    | Obj(fields: map<string, Value>)

  type Object = map<string, Value>

  /** The own enumerable properties `{ ...v }` copies: an object's fields;
      an array's elements and a string's characters under their index
      rendered in decimal; nothing for null, booleans and numbers. */
  function Spread(v: Value): (r: Object)
    ensures v.Obj? ==> r == v.fields
    ensures v.Arr? ==> |r| == |v.items| && forall i :: 0 <= i < |v.items| ==> NatToString(i) in r && r[NatToString(i)] == v.items[i]
    ensures v.Str? ==> |r| == |v.s| && forall i :: 0 <= i < |v.s| ==> NatToString(i) in r && r[NatToString(i)] == Str([v.s[i]])
    ensures (v.Null? || v.Bool? || v.Num?) ==> r == map[]
  {
    match v
    case Obj(m) => m
    case Arr(xs) => IndexKeyedSize(xs); IndexKeyed(xs)
    case Str(s) =>
      var chars := seq(|s|, i requires 0 <= i < |s| => Str([s[i]]));
      IndexKeyedSize(chars); IndexKeyed(chars)
    case _ => map[]
  }

  /** The object `{ ...xs }` for an array `xs`. */
  function IndexKeyed(xs: seq<Value>): (r: Object)
    ensures forall k :: k in r ==> IsDigits(k) && DecimalValue(k) < |xs|
    ensures forall i :: 0 <= i < |xs| ==> NatToString(i) in r && r[NatToString(i)] == xs[i]
  {
    if xs == [] then map[]
    else
      var prev := IndexKeyed(xs[..|xs| - 1]);
      DecimalOfNatToString(|xs| - 1);
      assert forall i :: 0 <= i < |xs| - 1 ==> xs[..|xs| - 1][i] == xs[i];
      prev[NatToString(|xs| - 1) := xs[|xs| - 1]]
  }

  /** Each element gets a key of its own. */
  lemma {:induction false} IndexKeyedSize(xs: seq<Value>)
    ensures |IndexKeyed(xs)| == |xs|
  {
    if xs != [] {
      var prev := IndexKeyed(xs[..|xs| - 1]);
      IndexKeyedSize(xs[..|xs| - 1]);
      DecimalOfNatToString(|xs| - 1);
      assert NatToString(|xs| - 1) !in prev;
    }
  }
}
