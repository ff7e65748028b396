/** The seller's account statement: an opening balance, the entries of a time window with a running
    balance, and summary columns. */
module SellerStatement {
  import opened Outcomes
  import opened SellerLedger

  datatype Stamped = Stamped(entry: Entry, at: int)

  datatype Item = Item(kind: Kind, amount: int, running: int)

  datatype Statement = Statement(opening: int, credits: int, refunds: int, payouts: int, available: int,
                                 items: seq<Item>)

  predicate Before(s: Stamped, from: Option<int>) { from.Some? && s.at < from.value }

  predicate InWindow(s: Stamped, from: Option<int>, to: Option<int>) {
    (from.Some? ==> s.at >= from.value) && (to.Some? ==> s.at <= to.value)
  }

  /** What moved the account before the window, and within it. */
  function SignedBefore(rows: seq<Stamped>, account: Account, from: Option<int>): int {
    if rows == [] then 0
    else
      var s := rows[|rows| - 1];
      SignedBefore(rows[..|rows| - 1], account, from)
          + if s.entry.account == account && Before(s, from) then Signed(s.entry) else 0
  }

  function SignedWithin(rows: seq<Stamped>, account: Account, from: Option<int>, to: Option<int>): int {
    if rows == [] then 0
    else
      var s := rows[|rows| - 1];
      SignedWithin(rows[..|rows| - 1], account, from, to)
          + if s.entry.account == account && InWindow(s, from, to) then Signed(s.entry) else 0
  }

  function TotalWithin(rows: seq<Stamped>, account: Account, kind: Kind, from: Option<int>, to: Option<int>): int {
    if rows == [] then 0
    else
      var s := rows[|rows| - 1];
      TotalWithin(rows[..|rows| - 1], account, kind, from, to)
      + if s.entry.account == account && s.entry.kind == kind && InWindow(s, from, to) then s.entry.amount else 0
  }

  /** The listed rows with the balance after each of them. */
  function ItemsOf(rows: seq<Stamped>, account: Account, from: Option<int>, to: Option<int>, opening: int): seq<Item> {
    if rows == [] then []
    else
      var s := rows[|rows| - 1];
      var running := opening + SignedWithin(rows, account, from, to);
      ItemsOf(rows[..|rows| - 1], account, from, to, opening)
      + if s.entry.account == account && InWindow(s, from, to) then [Item(s.entry.kind, s.entry.amount, running)]
      else []
  }

  /** One more row. */
  lemma RowAdded(rows: seq<Stamped>, n: nat, account: Account, from: Option<int>, to: Option<int>, opening: int)
    requires n < |rows|
    ensures var s := rows[n];
            var own, hit := s.entry.account == account, s.entry.account == account && InWindow(s, from, to);
            && SignedBefore(rows[..n + 1], account, from)
               == SignedBefore(rows[..n], account, from) + (if own && Before(s, from) then Signed(s.entry) else 0)
            && SignedWithin(rows[..n + 1], account, from, to)
               == SignedWithin(rows[..n], account, from, to) + (if hit then Signed(s.entry) else 0)
            && (forall kind ::
                  TotalWithin(rows[..n + 1], account, kind, from, to)
                  == TotalWithin(rows[..n], account, kind, from, to)
                     + (if hit && s.entry.kind == kind then s.entry.amount else 0))
            && ItemsOf(rows[..n + 1], account, from, to, opening)
               == ItemsOf(rows[..n], account, from, to, opening)
                  + (if hit then [Item(s.entry.kind, s.entry.amount,
                                       opening + SignedWithin(rows[..n + 1], account, from, to))] else [])
  {
    assert rows[..n + 1][..n] == rows[..n];
  }

  /** `seller_statement`: one pass for the opening balance and one over the window. */
  method SellerStatement(rows: seq<Stamped>, account: Account, from: Option<int>, to: Option<int>)
    returns (r: Statement)
    ensures r.opening == SignedBefore(rows, account, from)
    ensures r.credits == TotalWithin(rows, account, Credit, from, to)
    ensures r.refunds == TotalWithin(rows, account, RefundReversal, from, to)
    ensures r.payouts == TotalWithin(rows, account, PayoutDebit, from, to)
    ensures r.available == r.opening + SignedWithin(rows, account, from, to)
    ensures r.items == ItemsOf(rows, account, from, to, r.opening)
  {
    assert rows[..0] == [] && rows[..|rows|] == rows;
    var opening := 0;
    assert SignedBefore([], account, from) == SignedWithin([], account, from, to) == 0
           && ItemsOf([], account, from, to, 0) == [];
    assert forall kind :: TotalWithin([], account, kind, from, to) == 0;
    hide SignedBefore, SignedWithin, TotalWithin, ItemsOf, Signed;
    for n := 0 to |rows|
      invariant opening == SignedBefore(rows[..n], account, from)
    {
      RowAdded(rows, n, account, from, to, 0);
      if rows[n].entry.account == account && Before(rows[n], from) { opening := opening + Signed(rows[n].entry); }
    }
    var running, credits, refunds, payouts := opening, 0, 0, 0;
    var items: seq<Item> := [];
    for n := 0 to |rows|
      invariant running == opening + SignedWithin(rows[..n], account, from, to)
      invariant credits == TotalWithin(rows[..n], account, Credit, from, to)
      invariant refunds == TotalWithin(rows[..n], account, RefundReversal, from, to)
      invariant payouts == TotalWithin(rows[..n], account, PayoutDebit, from, to)
      invariant items == ItemsOf(rows[..n], account, from, to, opening)
    {
      RowAdded(rows, n, account, from, to, opening);
      var s := rows[n];
      if s.entry.account == account && InWindow(s, from, to) {
        running := running + Signed(s.entry);
        items := items + [Item(s.entry.kind, s.entry.amount, running)];
        match s.entry.kind {
          case Credit => credits := credits + s.entry.amount;
          case RefundReversal => refunds := refunds + s.entry.amount;
          case PayoutDebit => payouts := payouts + s.entry.amount;
          case RefundRecovery =>
        }
      }
    }
    r := Statement(opening, credits, refunds, payouts, running, items);
  }

  function BalanceBefore(items: seq<Item>, k: nat, opening: int): int
    requires k <= |items|
  {
    if k == 0 then opening else items[k - 1].running
  }

  predicate Follows(items: seq<Item>, k: nat, opening: int)
    requires k < |items|
  {
    items[k].running == BalanceBefore(items, k, opening)
        + if items[k].kind == Credit then items[k].amount else -items[k].amount
  }

  /** The running balance starts from the opening balance, moves by each listed amount with its sign,
      and ends on the available balance. */
  lemma {:induction false} RunningBalance(rows: seq<Stamped>, account: Account, from: Option<int>, to: Option<int>,
                                          opening: int)
    ensures var items := ItemsOf(rows, account, from, to, opening);
            && opening + SignedWithin(rows, account, from, to) == BalanceBefore(items, |items|, opening)
            && forall k :: 0 <= k < |items| ==> Follows(items, k, opening)
  {
    if rows != [] {
      var init, items := ItemsOf(rows[..|rows| - 1], account, from, to, opening),
          ItemsOf(rows, account, from, to, opening);
      RunningBalance(rows[..|rows| - 1], account, from, to, opening);
      forall k | 0 <= k < |items| ensures Follows(items, k, opening) {
        if k < |init| { assert Follows(init, k, opening); }
      }
    }
  }

  function Entries(rows: seq<Stamped>): seq<Entry> {
    if rows == [] then [] else Entries(rows[..|rows| - 1]) + [rows[|rows| - 1].entry]
  }

  /** A statement without an end shows the account's balance as available, wherever it starts. */
  lemma {:induction false} OpenEndShowsBalance(rows: seq<Stamped>, account: Account, from: Option<int>)
    ensures SignedBefore(rows, account, from) + SignedWithin(rows, account, from, None)
            == Balance(Entries(rows), account)
  {
    if rows != [] {
      var n := |rows| - 1;
      OpenEndShowsBalance(rows[..n], account, from);
      assert Entries(rows)[..|Entries(rows)| - 1] == Entries(rows[..n]);
    }
  }

  /** The four kinds make up the signed movement of the window. */
  lemma {:induction false} MovementByKind(rows: seq<Stamped>, account: Account, from: Option<int>, to: Option<int>)
    ensures SignedWithin(rows, account, from, to)
         == TotalWithin(rows, account, Credit, from, to) - TotalWithin(rows, account, RefundReversal, from, to)
            - TotalWithin(rows, account, PayoutDebit, from, to) - TotalWithin(rows, account, RefundRecovery, from, to)
  {
    if rows != [] { MovementByKind(rows[..|rows| - 1], account, from, to); }
  }

  predicate RecoveryIn(s: Stamped, account: Account, from: Option<int>, to: Option<int>) {
    s.entry.account == account && InWindow(s, from, to) && s.entry.kind == RefundRecovery
  }

  lemma {:induction false} RecoveriesAddUp(rows: seq<Stamped>, account: Account, from: Option<int>, to: Option<int>)
    requires forall s :: s in rows ==> s.entry.amount > 0
    ensures TotalWithin(rows, account, RefundRecovery, from, to) >= 0
    ensures TotalWithin(rows, account, RefundRecovery, from, to) == 0 <==>
              forall s :: s in rows ==> !RecoveryIn(s, account, from, to)
  {
    if rows != [] {
      var n := |rows| - 1;
      assert rows[n] in rows && rows == rows[..n] + [rows[n]];
      assert forall s :: s in rows <==> s in rows[..n] || s == rows[n];
      RecoveriesAddUp(rows[..n], account, from, to);
    }
  }

  /** The summary columns explain the available balance exactly when the window holds no refund
      recovery: recoveries move the balance but have no column. */
  lemma ColumnsReconcileIff(rows: seq<Stamped>, account: Account, from: Option<int>, to: Option<int>)
    requires forall s :: s in rows ==> s.entry.amount > 0
    ensures SignedWithin(rows, account, from, to)
              == TotalWithin(rows, account, Credit, from, to) - TotalWithin(rows, account, RefundReversal, from, to)
                 - TotalWithin(rows, account, PayoutDebit, from, to)
            <==> forall s :: s in rows ==> !RecoveryIn(s, account, from, to)
  {
    MovementByKind(rows, account, from, to);
    RecoveriesAddUp(rows, account, from, to);
  }

  /** Two consecutive statements that share a boundary instant: the closing balance of the first is
      the opening balance of the second plus what was booked at that very instant, which both list. */
  lemma {:induction false} SharedBoundary(rows: seq<Stamped>, account: Account, t: int)
    ensures SignedWithin(rows, account, None, Some(t))
         == SignedBefore(rows, account, Some(t)) + SignedWithin(rows, account, Some(t), Some(t))
  {
    if rows != [] { SharedBoundary(rows[..|rows| - 1], account, t); }
  }
}
