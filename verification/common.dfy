/** Types and arithmetic shared by every component of the model. */
module Common {

  datatype Option<+T> = None | Some(value: T)

  /** The largest value of Go's uint64. */
  const MAX_U64: int := 0xFFFF_FFFF_FFFF_FFFF

  const TWO_64: int := 0x1_0000_0000_0000_0000

  const TWO_63: int := 0x8000_0000_0000_0000

  /** A value of Go's uint64. */
  type U64 = n: int | 0 <= n <= MAX_U64

  /** A value of Go's int64 (time.Duration, among others). */
  type I64 = n: int | -TWO_63 <= n < TWO_63

  /** uint64 addition, with the wrap-around of the machine operation. */
  function Add64(a: U64, b: U64): U64 { (a + b) % TWO_64 }

  /** uint64 multiplication, with the wrap-around of the machine operation. */
  function Mul64(a: U64, b: U64): U64 { (a * b) % TWO_64 }

  /** The int64 a machine operation leaves when its exact result is n. */
  function Wrap63(n: int): (w: I64)
    ensures -TWO_63 <= n < TWO_63 ==> w == n
    ensures TWO_63 <= n < TWO_64 + TWO_63 ==> w == n - TWO_64
  {
    var r := n % TWO_64;
    if r < TWO_63 then r else r - TWO_64
  }

  lemma DivBounds(a: int, b: int)
    requires b > 0
    ensures a / b * b <= a < a / b * b + b && (a >= 0 ==> a / b >= 0)
  {
    assert a == a / b * b + a % b;
  }

  /** Go's integer division by a positive divisor: truncation toward zero. */
  function TruncDiv(a: int, b: int): (q: int)
    requires b > 0
    ensures a >= 0 ==> q >= 0 && q * b <= a < q * b + b
    ensures a < 0 ==> q <= 0 && q * b - b < a <= q * b
  {
    DivBounds(a, b);
    DivBounds(-a, b);
    if a >= 0 then a / b else -((-a) / b)
  }

  function Min(a: int, b: int): int { if a <= b then a else b }

  /** Elements satisfying a predicate, in order. */
  function Filter<T>(s: seq<T>, p: T -> bool): (r: seq<T>)
  {
    if s == [] then []
    else if p(s[0]) then [s[0]] + Filter(s[1..], p)
    else Filter(s[1..], p)
  }

  lemma {:induction false} FilterAppend<T>(s: seq<T>, t: seq<T>, p: T -> bool)
    ensures Filter(s + t, p) == Filter(s, p) + Filter(t, p)
  {
    if s == [] {
      assert s + t == t;
    } else {
      assert (s + t)[1..] == s[1..] + t;
      FilterAppend(s[1..], t, p);
    }
  }

  lemma Reassociate<T>(a: seq<T>, b: seq<T>, c: seq<T>)
    ensures a + (b + c) == a + b + c
  {
  }

  lemma Regrouped<T>(a: seq<T>, b: seq<T>, c: seq<T>, d: seq<T>)
    ensures a + b + c + d == a + (b + c + d)
  {
  }
}
