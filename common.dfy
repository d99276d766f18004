/** Small shared definitions: an optional value and money rounding. */
module Common {

  datatype Option<+T> = None | Some(value: T)

  /** No element occurs twice: a queryset never yields one row twice, a dict never holds one key twice. */
  predicate Distinct<T(==)>(xs: seq<T>) {
    forall i, j :: 0 <= i < j < |xs| ==> xs[i] != xs[j]
  }

  lemma DistinctAppend<T>(xs: seq<T>, x: T)
    requires Distinct(xs) && x !in xs
    ensures Distinct(xs + [x])
  {
  }

  /** What a prefix one element longer holds. */
  lemma PrefixGrow<T>(xs: seq<T>, k: nat)
    requires k < |xs|
    ensures forall x :: x in xs[..k + 1] <==> x in xs[..k] || x == xs[k]
  {
    assert xs[..k + 1] == xs[..k] + [xs[k]];
  }

  /** Python truthiness of an optional float: present and non-zero. */
  predicate Truthy(x: Option<real>) {
    x.Some? && x.value != 0.0
  }

  /**
   * `round(x, 2)`: the nearest whole number of hundredths, ties to the even
   * neighbour (Python's rule), taken on the exact decimal value.
   */
  function Round2(x: real): (r: real)
    ensures (r * 100.0).Floor as real == r * 100.0
    ensures -0.005 <= r - x <= 0.005
  {
    var y := x * 100.0;
    var n := y.Floor;
    var f := y - n as real;
    var m := if f < 0.5 then n else if f > 0.5 then n + 1 else if n % 2 == 0 then n else n + 1;
    m as real / 100.0
  }

  /** A value that already is a whole number of hundredths is left as it is. */
  lemma Round2Exact(k: int)
    ensures Round2(k as real / 100.0) == k as real / 100.0
  {
    var x := k as real / 100.0;
    assert x * 100.0 == k as real;
    assert (x * 100.0).Floor == k;
  }

  // Steps of real arithmetic that the solver does not find unaided.

  lemma DivideLower(value: real, q: real, lo: real)
    requires q > 0.0 && lo * q <= value
    ensures lo <= value / q
  {
    assert value / q - lo == (value - lo * q) / q;
  }

  lemma DivideUpper(value: real, q: real, hi: real)
    requires q > 0.0 && value <= hi * q
    ensures value / q <= hi
  {
    assert hi - value / q == (hi * q - value) / q;
  }

  lemma ScaleError(q: real, d: real, e: real)
    requires q > 0.0 && -e <= d <= e
    ensures -e * q <= q * d <= e * q
  {
    assert q * d + e * q == q * (d + e);
    assert e * q - q * d == q * (e - d);
  }

  lemma ScaleBounds(q: real, lo: real, c: real, hi: real)
    requires q >= 0.0 && lo <= c <= hi
    ensures lo * q <= q * c <= hi * q
  {
    assert q * c - lo * q == q * (c - lo);
    assert hi * q - q * c == q * (hi - c);
  }

  lemma DivideCancel(value: real, q: real, avg: real)
    requires q != 0.0 && avg == value / q
    ensures q * avg == value
  {
  }

  lemma ZeroProduct(q: real, c: real)
    requires q == 0.0
    ensures q * c == 0.0
  {
  }
}
