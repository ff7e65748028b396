/** Exact decimal money.

    An amount is an `int` counting units of 0.0001. Products of two such amounts count units of
    0.00000001; `SCALE` of those make one unit. Ratios are exact rationals. */
module Money {

  const SCALE := 10000

  /** The nearest integer to num/den; a tie goes away from zero (ROUND_HALF_UP). */
  function RoundHalfUp(num: int, den: int): int
    requires den > 0
  {
    if num >= 0 then (2 * num + den) / (2 * den) else -((2 * -num + den) / (2 * den))
  }

  /** The nearest integer to num/den; a tie goes to the even neighbour (the decimal default). */
  function RoundHalfEven(num: int, den: int): int
    requires den > 0
  {
    var low := num / den;
    var twice := 2 * (num % den);
    if twice < den || (twice == den && low % 2 == 0) then low else low + 1
  }

  /** A product of two amounts, brought back to units. */
  function ToUnits(fine: int): int { RoundHalfUp(fine, SCALE) }

  lemma DivBounds(a: int, b: int)
    requires b > 0
    ensures b * (a / b) <= a < b * (a / b) + b
  {
  }

  lemma HalfUpIsNearest(num: int, den: int)
    requires den > 0
    ensures -den <= 2 * (RoundHalfUp(num, den) * den - num) <= den
    ensures num >= 0 ==> RoundHalfUp(num, den) >= 0
  {
    MagnitudeIsNearest(if num >= 0 then num else -num, den);
  }

  lemma MagnitudeIsNearest(m: nat, den: int)
    requires den > 0
    ensures var q := (2 * m + den) / (2 * den);
            q >= 0 && -den <= 2 * (q * den - m) <= den && (-q) * den == -(q * den)
  {
    var q := (2 * m + den) / (2 * den);
    DivBounds(2 * m + den, 2 * den);
    assert 2 * den * q == 2 * (q * den);
  }

  lemma HalfEvenIsNearest(num: int, den: int)
    requires den > 0
    ensures -den <= 2 * (RoundHalfEven(num, den) * den - num) <= den
    ensures num >= 0 ==> RoundHalfEven(num, den) >= 0
  {
    var low := num / den;
    assert num == low * den + num % den;
    assert (low + 1) * den == low * den + den;
    DivBounds(num, den);
  }

  /** A tie of a non-negative value goes up, and rounding treats both signs alike. */
  lemma HalfUpTies(num: int, den: int)
    requires den > 0
    ensures num >= 0 ==> 2 * (RoundHalfUp(num, den) * den - num) > -den
    ensures RoundHalfUp(-num, den) == -RoundHalfUp(num, den)
  {
    if num >= 0 {
      DivBounds(2 * num + den, 2 * den);
      assert 2 * den * RoundHalfUp(num, den) == 2 * (RoundHalfUp(num, den) * den);
    }
  }

  /** A tie goes to the even neighbour. */
  lemma HalfEvenTies(num: int, den: int)
    requires den > 0
    ensures var r := RoundHalfEven(num, den); 2 * (r * den - num) in {-den, den} ==> r % 2 == 0
  {
    var low := num / den;
    assert num == low * den + num % den;
    assert (low + 1) * den == low * den + den;
  }

  /** Rounding is not disturbed by adding whole units, as long as the sum is not negative. */
  lemma UnitsShift(fine: int, units: int)
    requires fine >= 0 && fine + units * SCALE >= 0
    ensures ToUnits(fine + units * SCALE) == ToUnits(fine) + units
  {
    var a := (2 * fine + SCALE) / (2 * SCALE);
    assert 2 * (fine + units * SCALE) + SCALE == 2 * fine + SCALE + units * (2 * SCALE);
  }

  lemma UnitsOnGrid(units: int)
    ensures ToUnits(units * SCALE) == units
  {
  }
}

/** Sums over sequences. */
module Sums {

  function SumOf<T>(f: T -> int, s: seq<T>): int {
    if s == [] then 0 else SumOf(f, s[..|s| - 1]) + f(s[|s| - 1])
  }

  lemma SumAppend<T>(f: T -> int, s: seq<T>, x: T)
    ensures SumOf(f, s + [x]) == SumOf(f, s) + f(x)
  {
    assert (s + [x])[..|s|] == s;
  }

  lemma {:induction false} SumConcat<T>(f: T -> int, a: seq<T>, b: seq<T>)
    ensures SumOf(f, a + b) == SumOf(f, a) + SumOf(f, b)
  {
    if b == [] {
      assert a + b == a;
    } else {
      var b' := b[..|b| - 1];
      SumConcat(f, a, b');
      assert a + b == (a + b') + [b[|b| - 1]];
      SumAppend(f, a + b', b[|b| - 1]);
    }
  }

  lemma {:induction false} SumUpdate<T>(f: T -> int, s: seq<T>, i: nat, x: T)
    requires i < |s|
    ensures SumOf(f, s[i := x]) == SumOf(f, s) - f(s[i]) + f(x)
  {
    var n := |s| - 1;
    if i == n {
      assert s[i := x][..n] == s[..n];
    } else {
      SumUpdate(f, s[..n], i, x);
      assert s[i := x][..n] == s[..n][i := x];
    }
  }

  lemma {:induction false} SumRemove<T>(f: T -> int, s: seq<T>, i: nat)
    requires i < |s|
    ensures SumOf(f, s[..i] + s[i + 1..]) == SumOf(f, s) - f(s[i])
  {
    SumConcat(f, s[..i], s[i + 1..]);
    assert s == (s[..i] + [s[i]]) + s[i + 1..];
    SumConcat(f, s[..i] + [s[i]], s[i + 1..]);
    SumAppend(f, s[..i], s[i]);
  }

  lemma {:induction false} SumSame<T, U>(f: T -> int, s: seq<T>, g: U -> int, t: seq<U>)
    requires |s| == |t|
    requires forall i :: 0 <= i < |s| ==> f(s[i]) == g(t[i])
    ensures SumOf(f, s) == SumOf(g, t)
  {
    if s != [] { SumSame(f, s[..|s| - 1], g, t[..|t| - 1]); }
  }

  lemma RemoveFromMultiset<T>(t: seq<T>, i: nat)
    requires i < |t|
    ensures multiset(t[..i] + t[i + 1..]) == multiset(t) - multiset{t[i]}
  {
    assert t == t[..i] + ([t[i]] + t[i + 1..]);
  }

  /** The order of the summands does not matter. */
  lemma {:induction false} SumPermutation<T>(f: T -> int, s: seq<T>, t: seq<T>)
    requires multiset(s) == multiset(t)
    ensures SumOf(f, s) == SumOf(f, t)
    decreases |s|
  {
    if s == [] {
      assert |multiset(t)| == 0;
    } else {
      var n := |s| - 1;
      assert s[n] in multiset(t);
      var i :| 0 <= i < |t| && t[i] == s[n];
      RemoveFromMultiset(s, n);
      RemoveFromMultiset(t, i);
      assert s[..n] + s[n + 1..] == s[..n];
      SumPermutation(f, s[..n], t[..i] + t[i + 1..]);
      SumRemove(f, t, i);
    }
  }

  lemma {:induction false} SumNonNegative<T>(f: T -> int, s: seq<T>)
    requires forall i :: 0 <= i < |s| ==> f(s[i]) >= 0
    ensures SumOf(f, s) >= 0
  {
    if s != [] { SumNonNegative(f, s[..|s| - 1]); }
  }
}

/** Outcomes that carry a value or an error. */
module Outcomes {

  datatype Option<+T> = None | Some(value: T)

  datatype Result<+T, +E> = Ok(value: T) | Err(error: E) {
    predicate IsFailure() { Err? }

    function PropagateFailure<U>(): Result<U, E>
      requires Err?
    {
      Err(error)
    }

    function Extract(): T
      requires Ok?
    {
      value
    }
  }
}
