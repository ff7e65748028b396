/** Which item returns are accepted, and the lines that a return is made of. */
module ReturnCalls {
  import opened Money
  import opened Outcomes
  import opened Returns

  /** The items name different lines of the order, each within what is not in an active return yet. */
  ghost predicate Returnable(st: State, items: seq<(nat, int)>) {
    && (forall j, k :: 0 <= j < k < |items| ==> items[j].0 != items[k].0)
    && forall k :: 0 <= k < |items| ==>
         && items[k].0 < |st.order|
         && 0 < items[k].1 <= st.order[items[k].0].quantity - Returning(st.lines, items[k].0)
  }

  /** A line each, in the order of the items, for the rounded value of the returned quantity. */
  ghost predicate LinesFor(st: State, items: seq<(nat, int)>, lines: seq<ReturnLine>) {
    && |lines| == |st.lines| + |items| && lines[..|st.lines|] == st.lines
    && forall k :: 0 <= k < |items| ==>
         && items[k].0 < |st.order|
         && lines[|st.lines| + k] == ReturnLine(|st.requests|, items[k].0, items[k].1,
                                                ToUnits(st.order[items[k].0].price * items[k].1), LineRequested)
  }

  lemma {:induction false} ReturningNonNegative(lines: seq<ReturnLine>, l: nat)
    requires forall x :: x in lines ==> x.quantity > 0
    ensures Returning(lines, l) >= 0
  {
    if lines != [] {
      assert lines[|lines| - 1] in lines;
      ReturningNonNegative(lines[..|lines| - 1], l);
    }
  }

  /** New lines for other order lines leave the count of this one. */
  lemma {:induction false} ReturningOthers(st: State, items: seq<(nat, int)>, lines: seq<ReturnLine>, l: nat)
    requires LinesFor(st, items, lines) && forall k :: 0 <= k < |items| ==> items[k].0 != l
    ensures Returning(lines, l) == Returning(st.lines, l)
    decreases |items|
  {
    if items == [] {
      assert lines == st.lines;
    } else {
      var n := |items| - 1;
      var init := lines[..|lines| - 1];
      assert init[..|st.lines|] == st.lines;
      assert lines[|st.lines| + n].line == items[n].0;
      ReturningOthers(st, items[..n], init, l);
    }
  }

  lemma {:induction false} AddsLinesIff(st: State, items: seq<(nat, int)>, n: nat)
    requires Inv(st) && n <= |items|
    ensures AddLines(st, items, n).Ok? <==> Returnable(st, items[..n])
    ensures AddLines(st, items, n).Ok? ==> LinesFor(st, items[..n], AddLines(st, items, n).value)
  {
    if n > 0 {
      AddsLinesIff(st, items, n - 1);
      var (l, quantity) := items[n - 1];
      hide Returning, Returnable, LinesFor;
      ReturnableMore(st, items, n);
      if AddLines(st, items, n - 1).Ok? {
        var before := AddLines(st, items, n - 1).value;
        if forall k :: 0 <= k < n - 1 ==> items[k].0 != l {
          ReturningOthers(st, items[..n - 1], before, l);
          if l < |st.order| {
            EnoughLeft(st, l);
            LineAdded(st, items, n, before,
                      ReturnLine(|st.requests|, l, quantity, ToUnits(st.order[l].price * quantity), LineRequested));
          }
        }
        hide ToUnits, Inv;
      }
    } else {
      assert items[..0] == [];
    }
  }

  lemma ReturnableMore(st: State, items: seq<(nat, int)>, n: nat)
    requires 0 < n <= |items|
    ensures var (l, quantity) := items[n - 1];
            Returnable(st, items[..n]) <==>
              && Returnable(st, items[..n - 1]) && (forall k :: 0 <= k < n - 1 ==> items[k].0 != l)
              && l < |st.order| && 0 < quantity <= st.order[l].quantity - Returning(st.lines, l)
  {
    hide Returning;
    var init, all := items[..n - 1], items[..n];
    assert all == init + [items[n - 1]];
    assert forall k :: 0 <= k < n - 1 ==> init[k] == all[k] == items[k];
  }

  lemma EnoughLeft(st: State, l: nat)
    requires Inv(st) && l < |st.order|
    ensures Returning(st.lines, l) >= 0
  {
    hide Returning;
    forall x | x in st.lines ensures x.quantity > 0 { assert LineInv(x, st.order, st.requests); }
    ReturningNonNegative(st.lines, l);
  }

  lemma LineAdded(st: State, items: seq<(nat, int)>, n: nat, before: seq<ReturnLine>, x: ReturnLine)
    requires 0 < n <= |items| && LinesFor(st, items[..n - 1], before)
    requires items[n - 1].0 < |st.order|
    requires x == ReturnLine(|st.requests|, items[n - 1].0, items[n - 1].1,
                             ToUnits(st.order[items[n - 1].0].price * items[n - 1].1), LineRequested)
    ensures LinesFor(st, items[..n], before + [x])
  {
    hide ToUnits;
  }

  /** Main result: a return is accepted for a delivered order, of different lines and of no more than is left of each;
      it has one line an item, in order, for the rounded value of what comes back. */
  lemma RequestIff(st: State, items: seq<(nat, int)>, delivered: bool)
    requires Inv(st)
    ensures RequestItems(st, items, delivered).Ok? <==> delivered && items != [] && Returnable(st, items)
    ensures RequestItems(st, items, delivered).Ok? ==>
              var after := RequestItems(st, items, delivered).value;
              && after == st.(requests := st.requests + [Requested], lines := after.lines)
              && LinesFor(st, items, after.lines)
  {
    AddsLinesIff(st, items, |items|);
    assert items[..|items|] == items;
    hide Inv, AddLines, Returnable, LinesFor;
  }
}
