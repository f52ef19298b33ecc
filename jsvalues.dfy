/** JavaScript values as the extension sees them: what `JSON.parse` returns
    (plus `undefined`, the value of an absent property), JavaScript
    truthiness, `||`, property access with and without optional chaining,
    `String(v)`, and the `TypeError`s those operations throw. A thrown
    exception is a `Throw` carrying its message. */
module JsValues {
  import opened Common
  import opened Strings

  /** A JSON value. JSON numbers are modelled as integers. */
  datatype Json =
    | Undefined
    | Null
    | Bool(b: bool)
    | Num(n: int)
    | Str(s: string)
    | Arr(elems: seq<Json>)
    | Obj(props: map<string, Json>)

  /** The outcome of JavaScript code that may throw. */
  datatype Result<T> = Ok(value: T) | Throw(message: string) {
    predicate IsFailure() { Throw? }
    function PropagateFailure<U>(): Result<U>
      requires Throw?
    {
      Throw(message)
    }
    function Extract(): T
      requires Ok?
    {
      value
    }
  }

  /** JavaScript truthiness: `undefined`, `null`, `false`, `0` and `""` are falsy. */
  predicate Truthy(v: Json) {
    match v
    case Undefined => false
    case Null => false
    case Bool(b) => b
    case Num(n) => n != 0
    case Str(s) => s != ""
    case Arr(_) => true
    case Obj(_) => true
  }

  predicate Nullish(v: Json) {
    v.Undefined? || v.Null?
  }

  /** `a || b` */
  function Or(a: Json, b: Json): Json {
    if Truthy(a) then a else b
  }

  /** `a || ""`: the value itself when truthy, the empty string otherwise. */
  function OrEmpty(a: Json): (r: Json)
    ensures Truthy(r) <==> Truthy(a)
    ensures !Truthy(a) ==> r == Str("")
  {
    Or(a, Str(""))
  }

  /** `v?.[key]`: a missing property, or any property of a value that is not
      an object, is `undefined`. */
  function OptGet(v: Json, key: string): Json {
    match v
    case Obj(props) => if key in props then props[key] else Undefined
    case _ => Undefined
  }

  /** `v[key]` without optional chaining: reading a property of `null` or
      `undefined` throws a `TypeError`. */
  function Get(v: Json, key: string): (r: Result<Json>)
    ensures r.Throw? <==> Nullish(v)
    ensures r.Ok? ==> r.value == OptGet(v, key)
  {
    if v.Null? then Throw("Cannot read properties of null (reading '" + key + "')")
    else if v.Undefined? then Throw("Cannot read properties of undefined (reading '" + key + "')")
    else Ok(OptGet(v, key))
  }

  /** `v?.[i]` for an index: an array element, an object's property named by the
      decimal index, a character of a string. */
  function OptAt(v: Json, i: nat): Json {
    match v
    case Arr(es) => if i < |es| then es[i] else Undefined
    case Obj(props) => var k := NatToString(i); if k in props then props[k] else Undefined
    case Str(s) => if i < |s| then Str([s[i]]) else Undefined
    case _ => Undefined
  }

  /** Decimal digits of a natural number. */
  function NatToString(n: nat): (r: string)
    ensures |r| > 0
    ensures forall i :: 0 <= i < |r| ==> IsDigit(r[i])
  {
    var d := ['0' + (n % 10) as char];
    if n < 10 then d else NatToString(n / 10) + d
  }

  /** `String(v)` (also what a template literal `${v}` produces). An array prints
      as its elements joined with commas, `null` and `undefined` elements as
      empty text. */
  function ToStr(v: Json): string
    decreases v
  {
    match v
    case Undefined => "undefined"
    case Null => "null"
    case Bool(b) => if b then "true" else "false"
    case Num(n) => if n < 0 then "-" + NatToString(-n) else NatToString(n)
    case Str(s) => s
    case Arr(es) => Join(seq(|es|, i requires 0 <= i < |es| => if Nullish(es[i]) then "" else ToStr(es[i])), ",")
    case Obj(_) => "[object Object]"
  }

  /** `vs.join(sep)` on an array of values: `null` and `undefined` print as empty text. */
  function JoinValues(vs: seq<Json>, sep: string): string {
    Join(seq(|vs|, i requires 0 <= i < |vs| => if Nullish(vs[i]) then "" else ToStr(vs[i])), sep)
  }

  /** `for (const x of v)` over `what`: arrays yield their elements, strings their
      characters; anything else throws. */
  function Iterate(v: Json, what: string): (r: Result<seq<Json>>)
    ensures r.Ok? <==> v.Arr? || v.Str?
    ensures v.Arr? ==> r == Ok(v.elems)
  {
    match v
    case Arr(es) => Ok(es)
    case Str(s) => Ok(seq(|s|, i requires 0 <= i < |s| => Str([s[i]])))
    case _ => Throw(what + " is not iterable")
  }

  /** The receiver of `v.map(...)` on `what`: only arrays have `map`. */
  function ArrayElems(v: Json, what: string): (r: Result<seq<Json>>)
    ensures r.Ok? <==> v.Arr?
  {
    match v
    case Arr(es) => Ok(es)
    case _ =>
      if Nullish(v) then Throw("Cannot read properties of " + ToStr(v) + " (reading 'map')")
      else Throw(what + ".map is not a function")
  }

  /** `v.substring(0, n)` on `what`: only strings have `substring`. */
  function Substring(v: Json, n: nat, what: string): (r: Result<string>)
    ensures r.Ok? <==> v.Str?
    ensures r.Ok? ==> r.value == Take(v.s, n)
  {
    match v
    case Str(s) => Ok(Take(s, n))
    case _ =>
      if Nullish(v) then Throw("Cannot read properties of " + ToStr(v) + " (reading 'substring')")
      else Throw(what + ".substring is not a function")
  }

  /** `Array.isArray(v) && v.includes(x)` */
  predicate ArrayIncludes(v: Json, x: Json) {
    v.Arr? && x in v.elems
  }

  /** A `for` loop over `xs` whose body may throw: `step` runs on each element in
      turn, threading the state; the first exception ends the loop. */
  function Loop<S, A>(xs: seq<A>, init: S, step: (S, A) -> Result<S>): Result<S>
    decreases |xs|
  {
    if xs == [] then Ok(init)
    else
      var s :- Loop(xs[..|xs| - 1], init, step);
      step(s, xs[|xs| - 1])
  }

  /** One more iteration. */
  lemma LoopSnoc<S, A>(xs: seq<A>, i: nat, init: S, step: (S, A) -> Result<S>, s: S)
    requires i < |xs| && Loop(xs[..i], init, step) == Ok(s)
    ensures Loop(xs[..i + 1], init, step) == step(s, xs[i])
  {
    assert xs[..i + 1][..i] == xs[..i];
  }

  /** An exception in one iteration is the outcome of the whole loop. */
  lemma {:induction false} LoopStops<S, A>(xs: seq<A>, i: nat, init: S, step: (S, A) -> Result<S>, m: string)
    requires i <= |xs| && Loop(xs[..i], init, step) == Throw(m)
    decreases |xs| - i
    ensures Loop(xs, init, step) == Throw(m)
  {
    if i == |xs| {
      assert xs[..i] == xs;
    } else {
      assert xs[..i + 1][..i] == xs[..i];
      LoopStops(xs, i + 1, init, step, m);
    }
  }

  /** A property every iteration keeps holds of the loop's outcome. */
  lemma {:induction false} LoopInvariant<S, A>(xs: seq<A>, init: S, step: (S, A) -> Result<S>, p: S -> bool)
    requires p(init)
    requires forall s, a :: p(s) && step(s, a).Ok? ==> p(step(s, a).value)
    decreases |xs|
    ensures Loop(xs, init, step).Ok? ==> p(Loop(xs, init, step).value)
  {
    if xs != [] {
      LoopInvariant(xs[..|xs| - 1], init, step, p);
    }
  }

  /** `vs.map(f)` where `f` may throw: the first exception, in element order,
      ends the map. */
  function MapValues(vs: seq<Json>, f: Json -> Result<Json>): (r: Result<seq<Json>>)
    ensures r.Ok? ==> |r.value| == |vs|
    decreases |vs|
  {
    if vs == [] then Ok([])
    else
      var h :- f(vs[0]);
      var t :- MapValues(vs[1..], f);
      Ok([h] + t)
  }

  /** The map succeeds exactly when `f` succeeds on every element, and then
      holds `f`'s results in order. */
  lemma {:induction false} MapValuesOk(vs: seq<Json>, f: Json -> Result<Json>)
    decreases |vs|
    ensures MapValues(vs, f).Ok? <==> forall i :: 0 <= i < |vs| ==> f(vs[i]).Ok?
    ensures MapValues(vs, f).Ok? ==> forall i :: 0 <= i < |vs| ==> MapValues(vs, f).value[i] == f(vs[i]).value
  {
    if vs != [] {
      MapValuesOk(vs[1..], f);
      assert forall i :: 1 <= i < |vs| ==> vs[i] == vs[1..][i - 1];
    }
  }
}
