/** JavaScript numeric semantics that the planetarium relies on, stated over exact reals:
    the truncated remainder `%`, `Math.floor`, the truncation that `new Date(ms)`
    applies to its argument, and the truthiness test `if (field)` on an optional number. */
module Js {

  datatype Option<+T> = None | Some(value: T)

  /** The outcome of an operation that throws in the program for some inputs. */
  datatype Result<+T, +E> = Ok(value: T) | Err(error: E)

  /** A plain object used as a dictionary with string keys: `keys` is what `Object.keys`
      returns (insertion order, for keys that are not array indices). */
  datatype Dictionary<V> = Dictionary(keys: seq<string>, entries: map<string, V>)
  {
    /** Every key is listed exactly once. */
    ghost predicate Valid()
    {
      (forall i, j :: 0 <= i < j < |keys| ==> keys[i] != keys[j])
      && (forall k :: k in entries <==> k in keys)
    }

    /** `obj[k] = v`: a new key goes to the end of the key order, an existing key keeps
        its place and gets the new value. */
    function Put(k: string, v: V): (d: Dictionary<V>)
      requires Valid()
      ensures d.Valid()
      ensures d.entries == entries[k := v]
      ensures k in entries ==> d.keys == keys
      ensures k !in entries ==> d.keys == keys + [k]
    {
      if k in entries then Dictionary(keys, entries[k := v]) else Dictionary(keys + [k], entries[k := v])
    }
  }

  function EmptyDictionary<V>(): (d: Dictionary<V>)
    ensures d.Valid() && d.keys == [] && d.entries == map[]
  {
    Dictionary([], map[])
  }

  /** Truncation toward zero (`ToIntegerOrInfinity` on a finite number). */
  function Trunc(r: real): (n: int)
    ensures 0.0 <= r ==> 0 <= n && n as real <= r < n as real + 1.0
    ensures r < 0.0 ==> n <= 0 && n as real - 1.0 < r <= n as real
  {
    if r >= 0.0 then r.Floor else -((-r).Floor)
  }

  /** `x % y` on numbers: the remainder of truncated division, taking the sign of `x`. */
  function Rem(x: real, y: real): real
    requires y != 0.0
  {
    x - y * Trunc(x / y) as real
  }

  /** `Math.abs`. */
  function Abs(r: real): real
  {
    if r < 0.0 then -r else r
  }

  /** `r` is a whole number. */
  predicate IsWhole(r: real)
  {
    r.Floor as real == r
  }

  /** `a` and `b` differ by a whole number of periods `m`. */
  predicate Congruent(a: real, b: real, m: real)
    requires m != 0.0
  {
    IsWhole((a - b) / m)
  }

  /** The remainder differs from the dividend by a whole number of divisors. */
  lemma RemCongruent(x: real, y: real)
    requires y != 0.0
    ensures Congruent(Rem(x, y), x, y)
  {
    var n := -Trunc(x / y);
    var r := Rem(x, y);
    assert r - x == y * n as real;
    var d := (r - x) / y;
    assert d == n as real by {
      DivCancel(y, n as real);
    }
    assert IsWhole(d);
  }

  /** Congruence modulo `m` is transitive. */
  lemma CongruentTrans(a: real, b: real, c: real, m: real)
    requires m != 0.0 && Congruent(a, b, m) && Congruent(b, c, m)
    ensures Congruent(a, c, m)
  {
    var p, q := (a - b) / m, (b - c) / m;
    assert (a - c) / m == p + q;
    assert (p + q).Floor == p.Floor + q.Floor;
  }

  /** Adding one period keeps the congruence class. */
  lemma CongruentAddPeriod(a: real, m: real)
    requires m != 0.0
    ensures Congruent(a + m, a, m)
  {
    assert (a + m - a) / m == 1.0;
  }

  /** Congruence modulo `m` carries over to `k` times both sides modulo `k * m`. */
  lemma CongruentScale(a: real, b: real, m: real, k: real)
    requires m != 0.0 && k != 0.0 && Congruent(a, b, m)
    ensures Congruent(k * a, k * b, k * m)
  {
    assert (k * a - k * b) / (k * m) == (a - b) / m;
  }

  /** Adding the same value to both sides keeps the congruence. */
  lemma CongruentShift(a: real, b: real, c: real, m: real)
    requires m != 0.0 && Congruent(a, b, m)
    ensures Congruent(a + c, b + c, m)
  {
    assert (a + c - (b + c)) / m == (a - b) / m;
  }

  lemma DivCancel(y: real, a: real)
    requires y != 0.0
    ensures (y * a) / y == a
  {
  }

  /** For a positive divisor a non-negative dividend gives a remainder in [0, y). */
  lemma {:induction false} RemNonNegative(x: real, y: real)
    requires y > 0.0 && x >= 0.0
    ensures 0.0 <= Rem(x, y) < y
  {
    var q := x / y;
    var r := Trunc(q) as real;
    assert r <= q < r + 1.0;
    ScaledBetween(y, q, r, r + 1.0);
    assert y * q == x;
    assert y * q < y * (r + 1.0);
    assert y * (r + 1.0) == y * r + y;
    assert x < y * r + y;
    assert Rem(x, y) == x - y * r;
    assert x - y * r < y;
  }

  /** For a positive divisor a negative dividend gives a remainder in (-y, 0]. */
  lemma {:induction false} RemNegative(x: real, y: real)
    requires y > 0.0 && x < 0.0
    ensures -y < Rem(x, y) <= 0.0
  {
    var q := x / y;
    var r := Trunc(q) as real;
    assert r - 1.0 < q <= r;
    ScaledBetween(y, q, r - 1.0, r);
    assert y * q == x;
    assert y * (r - 1.0) < y * q;
    assert y * (r - 1.0) == y * r - y;
    assert y * r - y < x;
    assert Rem(x, y) == x - y * r;
    assert -y < x - y * r;
    assert -y < Rem(x, y);
  }

  /** Multiplying by a positive factor keeps a value between its bounds. */
  lemma ScaledBetween(y: real, q: real, lo: real, hi: real)
    requires y > 0.0 && lo <= q <= hi
    ensures y * lo <= y * q <= y * hi
    ensures lo < q ==> y * lo < y * q
    ensures q < hi ==> y * q < y * hi
  {
    MulMonotone(y, lo, q);
    MulMonotone(y, q, hi);
  }

  /** A value already in [0, y) is its own remainder. */
  lemma RemSmall(x: real, y: real)
    requires 0.0 <= x < y
    ensures Rem(x, y) == x
  {
    assert 0.0 <= x / y < 1.0;
  }

  lemma MulMonotone(y: real, a: real, b: real)
    requires y > 0.0 && a <= b
    ensures y * a <= y * b && (a < b ==> y * a < y * b)
  {
  }

  /** `if (field)` on an optional number: undefined and 0 are both falsy. */
  predicate Truthy(field: Option<real>)
  {
    field.Some? && field.value != 0.0
  }

  /** `new Date(ms).getTime()`: the time value is truncated toward zero to whole milliseconds.
      TimeClip's limit is left out: beyond 8.64e15 ms either way the Date is invalid (NaN). */
  function DateFromMs(ms: real): (t: int)
    ensures ms >= 0.0 ==> t as real <= ms < t as real + 1.0
    ensures ms < 0.0 ==> ms <= t as real < ms + 1.0
  {
    Trunc(ms)
  }

  /** A whole number of milliseconds is kept exactly. */
  lemma DateFromWholeMs(ms: real)
    requires IsWhole(ms)
    ensures DateFromMs(ms) as real == ms
  {
    if ms < 0.0 {
      assert (-ms).Floor == -(ms.Floor);
    }
  }
}
