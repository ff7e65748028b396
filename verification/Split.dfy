/** Splitting an amount over weighted parts: every part but the last gets its exact share rounded
    to a unit, the last part takes what is left. Checkout splits fees and shipping this way
    (half-up), discounts are split the same way (half-even). */
module Split {
  import opened Money
  import opened Sums

  datatype Mode = HalfUp | HalfEven

  function Round(mode: Mode, num: int, den: int): int
    requires den > 0
  {
    match mode
    case HalfUp => RoundHalfUp(num, den)
    case HalfEven => RoundHalfEven(num, den)
  }

  function Identity(x: int): int { x }

  /** The rounded share of one part; with an empty whole nothing can be apportioned. */
  function Share(mode: Mode, amount: int, part: int, whole: nat): int {
    if whole == 0 then 0 else Round(mode, amount * part, whole)
  }

  function RoundedShares(mode: Mode, amount: int, parts: seq<int>, whole: nat): (r: seq<int>)
    ensures |r| == |parts|
    ensures forall i :: 0 <= i < |parts| ==> r[i] == Share(mode, amount, parts[i], whole)
  {
    if parts == [] then []
    else
      var n := |parts| - 1;
      RoundedShares(mode, amount, parts[..n], whole) + [Share(mode, amount, parts[n], whole)]
  }

  function Shares(mode: Mode, amount: int, parts: seq<int>, whole: nat): (r: seq<int>)
    requires parts != []
    ensures |r| == |parts|
  {
    var head := RoundedShares(mode, amount, parts[..|parts| - 1], whole);
    head + [amount - SumOf(Identity, head)]
  }

  /** What the first parts together take of an amount. */
  function HandedOut(mode: Mode, amount: int, parts: seq<int>, whole: nat): int {
    SumOf(Identity, RoundedShares(mode, amount, parts, whole))
  }

  lemma NothingHandedOut(mode: Mode, amount: int, parts: seq<int>, whole: nat)
    ensures HandedOut(mode, amount, parts[..0], whole) == 0
  {
  }

  lemma ShareAt(mode: Mode, amount: int, parts: seq<int>, whole: nat, n: nat)
    requires n < |parts|
    ensures Shares(mode, amount, parts, whole)[n] ==
            if n + 1 < |parts| then Share(mode, amount, parts[n], whole)
            else amount - HandedOut(mode, amount, parts[..n], whole)
  {
    hide Share;
  }

  lemma HandOutNext(mode: Mode, amount: int, parts: seq<int>, whole: nat, n: nat)
    requires n < |parts|
    ensures HandedOut(mode, amount, parts[..n + 1], whole)
            == HandedOut(mode, amount, parts[..n], whole) + Share(mode, amount, parts[n], whole)
  {
    hide Share;
    assert parts[..n + 1][..n] == parts[..n];
    SumAppend(Identity, RoundedShares(mode, amount, parts[..n], whole), Share(mode, amount, parts[n], whole));
  }

  lemma RoundIsNearest(mode: Mode, num: int, den: int)
    requires den > 0
    ensures -den <= 2 * (Round(mode, num, den) * den - num) <= den
  {
    match mode
    case HalfUp => HalfUpIsNearest(num, den);
    case HalfEven => HalfEvenIsNearest(num, den);
  }

  /** Nothing is created or lost. */
  lemma SharesSumExactly(mode: Mode, amount: int, parts: seq<int>, whole: nat)
    requires parts != []
    ensures SumOf(Identity, Shares(mode, amount, parts, whole)) == amount
  {
    var head := RoundedShares(mode, amount, parts[..|parts| - 1], whole);
    SumAppend(Identity, head, amount - SumOf(Identity, head));
  }

  lemma ShareDrift(mode: Mode, amount: int, part: int, whole: nat)
    requires whole > 0
    ensures -(whole as int) <= Drift(Share(mode, amount, part, whole), part, amount, whole) <= whole
  {
    RoundIsNearest(mode, amount * part, whole);
  }

  /** How far a share may be from its exact proportion, in halves of a unit: the last of n takes what
      rounding left. */
  function Slack(i: nat, n: nat): nat
    requires i < n
  {
    if i + 1 < n then 1 else n - 1
  }

  /** Every share but the last is within half a unit of the exact one. */
  lemma ShareIsNearest(mode: Mode, amount: int, parts: seq<int>, whole: nat, i: nat)
    requires whole > 0 && i + 1 < |parts|
    ensures -(whole as int) <= Drift(Shares(mode, amount, parts, whole)[i], parts[i], amount, whole) <= whole
  {
    ShareDrift(mode, amount, parts[i], whole);
  }

  /** Twice the distance of `got` from its exact share of `amount`, scaled by `whole`. */
  function Drift(got: int, exact: int, amount: int, whole: int): int {
    2 * (got * whole - amount * exact)
  }

  lemma DriftAdds(s: int, h: int, p: int, q: int, amount: int, whole: int)
    ensures Drift(s + h, p + q, amount, whole) == Drift(s, p, amount, whole) + Drift(h, q, amount, whole)
  {
    assert (s + h) * whole == s * whole + h * whole;
    assert amount * (p + q) == amount * p + amount * q;
  }

  lemma DriftComplement(s: int, p: int, q: int, amount: int, whole: int)
    requires p + q == whole
    ensures Drift(amount - s, q, amount, whole) == -Drift(s, p, amount, whole)
  {
    assert (amount - s) * whole == amount * whole - s * whole;
    assert amount * whole == amount * p + amount * q;
  }

  function Times(n: nat, whole: int): int {
    if n == 0 then 0 else Times(n - 1, whole) + whole
  }

  lemma {:induction false} TimesIsProduct(n: nat, whole: int)
    ensures Times(n, whole) == n * whole
  {
    if n > 0 {
      TimesIsProduct(n - 1, whole);
      assert n * whole == (n - 1) * whole + whole;
    }
  }

  /** The distance of a running total from its exact value stays within n half units. */
  ghost predicate WithinDrift(got: int, exact: int, amount: int, whole: int, n: nat) {
    -Times(n, whole) <= Drift(got, exact, amount, whole) <= Times(n, whole)
  }

  lemma DriftStep(s: int, h: int, p: int, q: int, amount: int, whole: int, n: nat)
    requires WithinDrift(s, p, amount, whole, n) && -whole <= Drift(h, q, amount, whole) <= whole
    ensures WithinDrift(s + h, p + q, amount, whole, n + 1)
  {
    DriftAdds(s, h, p, q, amount, whole);
  }

  lemma {:induction false} RoundedDrift(mode: Mode, amount: int, parts: seq<int>, whole: nat)
    requires whole > 0
    ensures WithinDrift(SumOf(Identity, RoundedShares(mode, amount, parts, whole)), SumOf(Identity, parts),
                        amount, whole, |parts|)
  {
    if parts != [] {
      var n := |parts| - 1;
      var head, share := RoundedShares(mode, amount, parts[..n], whole), Share(mode, amount, parts[n], whole);
      RoundedDrift(mode, amount, parts[..n], whole);
      ShareDrift(mode, amount, parts[n], whole);
      DriftStep(SumOf(Identity, head), share, SumOf(Identity, parts[..n]), parts[n], amount, whole, n);
      SumAppend(Identity, head, share);
    }
  }

  /** The last share absorbs the rounding of the others: with n parts it is within (n - 1) / 2 units. */
  lemma LastShareDrift(mode: Mode, amount: int, parts: seq<int>, whole: nat)
    requires whole > 0 && parts != [] && SumOf(Identity, parts) == whole
    ensures var n := |parts| - 1;
            WithinDrift(Shares(mode, amount, parts, whole)[n], parts[n], amount, whole, n)
  {
    var n := |parts| - 1;
    RoundedDrift(mode, amount, parts[..n], whole);
    DriftComplement(SumOf(Identity, RoundedShares(mode, amount, parts[..n], whole)), SumOf(Identity, parts[..n]),
                    parts[n], amount, whole);
  }

  /** Non-negative whenever the exact last share is at least (n - 1) / 2 units. */
  lemma LastShareNonNegative(mode: Mode, amount: int, parts: seq<int>, whole: nat)
    requires whole > 0 && parts != [] && SumOf(Identity, parts) == whole
    requires 2 * (amount * parts[|parts| - 1]) >= Times(|parts| - 1, whole)
    ensures Shares(mode, amount, parts, whole)[|parts| - 1] >= 0
  {
    LastShareDrift(mode, amount, parts, whole);
    NonNegativeFactor(Shares(mode, amount, parts, whole)[|parts| - 1], whole);
  }

  lemma NonNegativeFactor(x: int, whole: int)
    requires whole > 0
    ensures x * whole >= 0 <==> x >= 0
  {
  }

  /** Without that hypothesis the last share can be negative: two units over four equal lines
      (half-up), three units over five equal lines (half-even). */
  lemma LastShareCanBeNegative()
    ensures Shares(HalfUp, 2, [1, 1, 1, 1], 4) == [1, 1, 1, -1]
    ensures Shares(HalfEven, 3, [1, 1, 1, 1, 1], 5) == [1, 1, 1, 1, -1]
  {
    var a := RoundedShares(HalfUp, 2, [1, 1, 1], 4);
    assert a == [1, 1, 1];
    assert SumOf(Identity, [1, 1, 1]) == 3 by {
      SumAppend(Identity, [1, 1], 1);
      SumAppend(Identity, [1], 1);
      SumAppend(Identity, [], 1);
      assert [1, 1] + [1] == [1, 1, 1] && [1] + [1] == [1, 1] && [] + [1] == [1];
    }
    var b := RoundedShares(HalfEven, 3, [1, 1, 1, 1], 5);
    assert b == [1, 1, 1, 1];
    SumAppend(Identity, [1, 1, 1], 1);
    assert [1, 1, 1] + [1] == [1, 1, 1, 1];
    assert [1, 1, 1, 1][..3] == [1, 1, 1] && [1, 1, 1, 1, 1][..4] == [1, 1, 1, 1];
  }
}
