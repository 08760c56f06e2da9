/** Ruby values as they appear in ThousandIsland's option hashes: nil, booleans,
    Integers, Floats, Strings, Symbols, Arrays and (symbol-keyed) Hashes, and the
    few operations on them the library relies on. */
module Values {

  /** A hash key: the name of a Ruby Symbol. */
  type Key = string

  datatype Value =
    | Nil
    | Bool(b: bool)
    | Int(i: int)
    | Float(r: real)
    | Str(s: string)
    | Sym(name: string)
    | List(items: seq<Value>)
    | Hash(entries: map<Key, Value>)

  /** An option hash. */
  type Options = map<Key, Value>

  /** A numeric value (Integer or Float). */
  type Number = v: Value | v.Int? || v.Float? witness Int(0)

  /** The exceptions the library raises, or that Ruby raises on its behalf. */
  datatype Error =
    | NoMethodError
    | TypeError
    | ArgumentError(message: string)
    | NotImplementedError
    | TemplateRequiredError(message: string)

  datatype Result<T> = Ok(value: T) | Err(error: Error)

  datatype Option<T> = None | Some(value: T)

  /** Ruby truthiness: everything except nil and false. */
  predicate Truthy(v: Value) {
    !(v.Nil? || v == Bool(false))
  }

  /** Ruby's `h[k]` on a plain Hash: nil for a missing key. */
  function Lookup(h: Options, k: Key): Value {
    if k in h then h[k] else Nil
  }

  /** Ruby's `a.merge(b)`: the keys of both, values of `b` where both define one. */
  function MergeHash(a: Options, b: Options): (r: Options)
    ensures r.Keys == a.Keys + b.Keys
    ensures forall k :: k in b ==> r[k] == b[k]
    ensures forall k :: k in a && k !in b ==> r[k] == a[k]
  {
    a + b
  }

  /** The mathematical value of a number. */
  function ToReal(v: Number): real {
    match v
    case Int(i) => i as real
    case Float(r) => r
  }

  /** Ruby's `+` on numbers: Integer + Integer is an Integer, anything with a Float a Float. */
  function Add(a: Number, b: Number): (r: Number)
    ensures ToReal(r) == ToReal(a) + ToReal(b)
    ensures r.Int? <==> a.Int? && b.Int?
  {
    if a.Int? && b.Int? then Int(a.i + b.i) else Float(ToReal(a) + ToReal(b))
  }

  /** Ruby's `-` on numbers. */
  function Sub(a: Number, b: Number): (r: Number)
    ensures ToReal(r) == ToReal(a) - ToReal(b)
    ensures r.Int? <==> a.Int? && b.Int?
  {
    if a.Int? && b.Int? then Int(a.i - b.i) else Float(ToReal(a) - ToReal(b))
  }

  /** Ruby's `*` on numbers (Floats as exact reals). */
  function Mul(a: Number, b: Number): (r: Number)
    ensures ToReal(r) == ToReal(a) * ToReal(b)
    ensures r.Int? <==> a.Int? && b.Int?
  {
    if a.Int? && b.Int? then Int(a.i * b.i) else Float(ToReal(a) * ToReal(b))
  }

  predicate IsNumber(v: Value) {
    v.Int? || v.Float?
  }

  /** The Integer count Ruby takes from a number (`to_int`): a Float is
      truncated toward zero. */
  function Truncate(n: Number): (c: int)
    ensures n.Int? ==> c == n.i
    ensures n.Float? && n.r >= 0.0 ==> c as real <= n.r < c as real + 1.0
    ensures n.Float? && n.r < 0.0 ==> c as real - 1.0 < n.r <= c as real
  {
    match n
    case Int(i) => i
    case Float(r) => if r >= 0.0 then r.Floor else -((-r).Floor)
  }

  /** `s * n` on a String or an Array: `s` repeated `n` times. */
  function Repeat<T>(s: seq<T>, n: nat): (r: seq<T>)
    ensures |r| == |s| * n
    ensures forall i | 0 <= i < |r| :: r[i] == s[i % |s|]
  {
    if n == 0 then []
    else
      var init := Repeat(s, n - 1);
      forall i | |init| <= i < |init| + |s|
        ensures i % |s| == i - |init|
      {
        ModOfLastBlock(i, n - 1, |s|);
      }
      init + s
  }

  lemma ModOfLastBlock(i: int, k: nat, m: int)
    requires m > 0 && k * m <= i < k * m + m
    ensures i % m == i - k * m
  {
    var q, d := i / m, i % m;
    assert (q - k) * m == (i - k * m) - d;
    SmallMultipleIsZero(q - k, m);
  }

  lemma SmallMultipleIsZero(x: int, m: int)
    requires m > 0 && -m < x * m < m
    ensures x == 0
  {
  }

  /** Ruby's `a * b` for a numeric `b`. Numbers multiply. A String or an Array
      is repeated `b` times, truncated, and a negative count raises
      ArgumentError. A receiver without `*` (nil, true, false, a Symbol, a
      Hash) raises NoMethodError. */
  function Times(a: Value, b: Number): (r: Result<Value>)
    ensures IsNumber(a) ==> r.Ok? && r.value == Mul(a, b)
    ensures (a.Str? || a.List?) ==> (r.Ok? <==> Truncate(b) >= 0)
    ensures (a.Str? || a.List?) && r.Err? ==> r.error == ArgumentError("negative argument")
    ensures a.Str? && r.Ok? ==>
      r.value.Str? && |r.value.s| == |a.s| * Truncate(b)
      && forall i | 0 <= i < |r.value.s| :: r.value.s[i] == a.s[i % |a.s|]
    ensures a.List? && r.Ok? ==>
      r.value.List? && |r.value.items| == |a.items| * Truncate(b)
      && forall i | 0 <= i < |r.value.items| :: r.value.items[i] == a.items[i % |a.items|]
    ensures !IsNumber(a) && !a.Str? && !a.List? ==> r == Err(NoMethodError)
  {
    if IsNumber(a) then
      var m: Value := Mul(a, b);
      Ok(m)
    else if a.Str? || a.List? then
      var n := Truncate(b);
      if n < 0 then Err(ArgumentError("negative argument"))
      else if a.Str? then Ok(Str(Repeat(a.s, n)))
      else Ok(List(Repeat(a.items, n)))
    else Err(NoMethodError)
  }
}
