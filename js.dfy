/** JavaScript values as the event handler and the admin panel see them, with the
    truthiness, property access and string conversion rules those files rely on.
    Numbers are integers only; objects keep their entries in insertion order. */
module Js {

  datatype Option<+T> = None | Some(value: T)

  /** A thrown JavaScript error, identified by its message. */
  datatype Error = Error(message: string)

  /** The outcome of an awaited call: a value, or the error it threw. */
  datatype Result<+T> = Ok(value: T) | Err(error: Error)

  datatype Value =
    | Undefined
    | Null
    | Bool(b: bool)
    | Num(n: int)
    | Str(s: string)
    | Arr(items: seq<Value>)
    | Obj(entries: seq<(string, Value)>)

  predicate Nullish(v: Value) {
    v.Undefined? || v.Null?
  }

  /** `Boolean(v)`, and so also what `!v` negates. */
  predicate Truthy(v: Value) {
    match v
    case Undefined => false
    case Null => false
    case Bool(b) => b
    case Num(n) => n != 0
    case Str(s) => s != ""
    case Arr(_) => true
    case Obj(_) => true
  }

  /** The value stored under `key` in an object literal; undefined when absent. */
  function Lookup(entries: seq<(string, Value)>, key: string): (r: Value)
    ensures r != Undefined ==> exists i :: 0 <= i < |entries| && entries[i] == (key, r)
  {
    if entries == [] then Undefined
    else if entries[0].0 == key then entries[0].1
    else Lookup(entries[1..], key)
  }

  /** `v?.key`: undefined when `v` is null or undefined, the property otherwise
      (only the properties the modelled code reads are given: object entries
      and the `length` of arrays and strings). */
  function Member(v: Value, key: string): (r: Value)
    ensures Nullish(v) ==> r == Undefined
  {
    match v
    case Obj(entries) => Lookup(entries, key)
    case Arr(items) => if key == "length" then Num(|items|) else Undefined
    case Str(s) => if key == "length" then Num(|s|) else Undefined
    case _ => Undefined
  }

  function ReadError(key: string): Error {
    Error("TypeError: Cannot read properties of undefined (reading '" + key + "')")
  }

  /** `v.key` and `v[key]`: throws on null or undefined. */
  function Access(v: Value, key: string): (r: Result<Value>)
    ensures r.Err? <==> Nullish(v)
    ensures r.Ok? ==> r.value == Member(v, key)
  {
    if Nullish(v) then Err(ReadError(key)) else Ok(Member(v, key))
  }

  /** `v?.[0]`. */
  function First(v: Value): (r: Value)
    ensures v.Arr? ==> r == (if v.items == [] then Undefined else v.items[0])
  {
    match v
    case Arr(items) => if items == [] then Undefined else items[0]
    case Str(s) => if s == "" then Undefined else Str(s[..1])
    case Obj(entries) => Lookup(entries, "0")
    case _ => Undefined
  }

  function DigitChar(d: nat): char
    requires d < 10
  {
    "0123456789"[d]
  }

  function NatToString(n: nat): (r: string)
    ensures r != []
    decreases n
  {
    if n < 10 then [DigitChar(n)] else NatToString(n / 10) + [DigitChar(n % 10)]
  }

  function IntToString(i: int): string {
    if i < 0 then "-" + NatToString(-i) else NatToString(i)
  }

  /** `String(v)`. An array joins its elements with "," (null and undefined
      elements becoming empty); any other object prints as "[object Object]". */
  function ToStr(v: Value): string
    decreases v, 1, 0
  {
    match v
    case Undefined => "undefined"
    case Null => "null"
    case Bool(b) => if b then "true" else "false"
    case Num(n) => IntToString(n)
    case Str(s) => s
    case Arr(items) => JoinElements(items, 0)
    case Obj(_) => "[object Object]"
  }

  function JoinElements(items: seq<Value>, from: nat): string
    requires from <= |items|
    decreases Arr(items), 0, |items| - from
  {
    if from == |items| then ""
    else
      var head := if Nullish(items[from]) then "" else ToStr(items[from]);
      if from + 1 == |items| then head else head + "," + JoinElements(items, from + 1)
  }

  /** `xs.join(sep)` for an array of strings. */
  function Join(xs: seq<string>, sep: string): string
    decreases |xs|
  {
    if xs == [] then ""
    else if |xs| == 1 then xs[0]
    else xs[0] + sep + Join(xs[1..], sep)
  }

  /** `x` occurs in `s` as a contiguous piece. */
  ghost predicate IsInfix(x: string, s: string) {
    exists i :: OccursAt(x, s, i)
  }

  ghost predicate OccursAt(x: string, s: string, i: int) {
    0 <= i <= |s| - |x| && s[i..i + |x|] == x
  }

  lemma InfixBetween(a: string, x: string, b: string)
    ensures IsInfix(x, a + x + b)
  {
    var s := a + x + b;
    assert OccursAt(x, s, |a|);
  }

  lemma InfixGrow(x: string, s: string, a: string, b: string)
    requires IsInfix(x, s)
    ensures IsInfix(x, a + s + b)
  {
    var i :| OccursAt(x, s, i);
    var t := a + s + b;
    assert t[|a| + i..|a| + i + |x|] == s[i..i + |x|];
    assert OccursAt(x, t, |a| + i);
  }

  lemma InfixTransitive(x: string, y: string, s: string)
    requires IsInfix(x, y) && IsInfix(y, s)
    ensures IsInfix(x, s)
  {
    var i :| OccursAt(x, y, i);
    var j :| OccursAt(y, s, j);
    forall t | 0 <= t < |x| ensures s[j + i + t] == x[t] {
      assert s[j..j + |y|][i + t] == y[i + t];
      assert y[i..i + |x|][t] == x[t];
    }
    assert s[j + i..j + i + |x|] == x;
    assert OccursAt(x, s, j + i);
  }

  /** Every element of a joined list shows up in the joined text. */
  lemma {:induction false} JoinContainsEach(xs: seq<string>, sep: string, k: nat)
    requires k < |xs|
    ensures IsInfix(xs[k], Join(xs, sep))
    decreases |xs|
  {
    if |xs| == 1 {
      InfixBetween("", xs[0], "");
      assert "" + xs[0] + "" == xs[0];
    } else if k == 0 {
      InfixBetween("", xs[0], sep + Join(xs[1..], sep));
      assert "" + xs[0] + (sep + Join(xs[1..], sep)) == Join(xs, sep);
    } else {
      JoinContainsEach(xs[1..], sep, k - 1);
      InfixGrow(xs[k], Join(xs[1..], sep), xs[0] + sep, "");
      assert xs[0] + sep + Join(xs[1..], sep) + "" == Join(xs, sep);
    }
  }

  /** The joined text is the elements and exactly |xs| - 1 separators. */
  lemma {:induction false} JoinLength(xs: seq<string>, sep: string)
    requires xs != []
    ensures |Join(xs, sep)| == TotalLength(xs) + (|xs| - 1) * |sep|
    decreases |xs|
  {
    if |xs| > 1 {
      JoinLength(xs[1..], sep);
    }
  }

  function TotalLength(xs: seq<string>): nat {
    if xs == [] then 0 else |xs[0]| + TotalLength(xs[1..])
  }
}
