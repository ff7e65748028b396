/** When a payment is settled and a payout requested and paid: exact conditions, and what each call writes. */
module PayoutCalls {
  import opened OrderLife
  import opened Outcomes
  import opened SellerBalance
  import opened SellerInvariant
  import opened SellerLedger

  /** The payout as the audit finds it before a credit or a debit: what was credited is what is left and what refunds
      reversed. */
  lemma AuditOpen(db: Db, i: nat)
    requires Inv(db) && i < |db.payouts|
    ensures i < |db.orders| && RowInv(db.orders[i], db.payouts[i], db.entries, i)
    ensures Total(db.entries, i, Credit) >= 0 && Total(db.entries, i, RefundReversal) >= 0
    ensures Count(db.entries, i, Credit) == 0 <==> Total(db.entries, i, Credit) == 0
    ensures Count(db.entries, i, RefundReversal) == 0 <==> Total(db.entries, i, RefundReversal) == 0
    ensures Count(db.entries, i, RefundRecovery) == 0 <==> Total(db.entries, i, RefundRecovery) == 0
  {
    Positive(db.payouts, db.entries);
    TotalsFromCounts(db.entries, i, Credit);
    TotalsFromCounts(db.entries, i, RefundReversal);
    TotalsFromCounts(db.entries, i, RefundRecovery);
    hide ExternalInv, EntriesInv, ReturnsInv, RowInv;
  }

  /** Main result: an eligible payout is requested unless its order is blocked; nothing but its status and reference
      changes. */
  lemma RequestPayoutIff(db: Db, seller: int, i: nat, reference: string, allowed: bool)
    ensures var reply := RequestPayout(db, seller, i, reference, allowed);
            && (reply.error.None? <==>
                  && Owned(db, seller, i) && !BlocksPayout(db.orders[i].status) && db.payouts[i].status == Eligible
                  && allowed)
            && reply.db == (if reply.error.Some? then db
                            else db.(payouts := db.payouts[i := db.payouts[i].(status := InProcess,
                                                                               payoutRef := Some(reference))]))
  {
  }

  /** Main result: a payout in process is paid if and only if its order is not blocked, it has its references and one of
      its own from the bank, it is worth something that the account can pay, and no refund has touched it. */
  lemma PayoutPaidIff(db: Db, seller: int, i: nat, reference: string)
    requires Inv(db) && Owned(db, seller, i) && db.payouts[i].status == InProcess
    ensures var p, reply := db.payouts[i], MarkPayoutPaid(db, seller, i, reference, true, true);
            && (reply.error.None? <==>
                  && !BlocksPayout(db.orders[i].status) && p.paymentRef.Some? && p.settlementRef.Some?
                  && reference != ""
                  && (forall k :: 0 <= k < |db.payouts| ==> db.payouts[k].externalRef != Some(reference))
                  && 0 < p.net <= Balance(db.entries, p.account) && Total(db.entries, i, RefundReversal) == 0)
            && (reply.error.None? ==>
                  && |reply.db.entries| == |db.entries| + 1
                  && var e := reply.db.entries[|db.entries|];
                     && reply.db
                        == db.(payouts := db.payouts[i := p.(status := PaidOut, externalRef := Some(reference))],
                               entries := db.entries + [e])
                     && (e.payout, e.account, e.kind, e.amount) == (i, p.account, PayoutDebit, p.net))
  {
    var p := db.payouts[i];
    var e := EntryFor(db, i, PayoutDebit, p.net, if p.payoutRef.Some? then p.payoutRef.value else reference);
    AuditOpen(db, i);
    NoExternal(db, i);
    NoEntry(db.entries, i, PayoutDebit, e.source);
    hide Inv, HasEntry, Balance;
    DebitAudit(db, i, e, p.(status := PaidOut, externalRef := Some(reference)));
    hide RowInv, BalanceAudit, Total, Count;
  }

  lemma NoExternal(db: Db, i: nat)
    requires Inv(db) && i < |db.payouts| && db.payouts[i].status == InProcess
    ensures db.payouts[i].externalRef.None?
  {
  }

  /** The audit of a payout after its debit. */
  lemma DebitAudit(db: Db, i: nat, e: Entry, paid: Payout)
    requires i < |db.orders| && i < |db.payouts| && RowInv(db.orders[i], db.payouts[i], db.entries, i)
    requires db.payouts[i].status == InProcess && paid.status == PaidOut && paid.net == db.payouts[i].net
    requires e.payout == i && e.kind == PayoutDebit && e.amount == paid.net
    requires !HasEntry(db.entries, i, PayoutDebit, e.source)
    requires Total(db.entries, i, RefundReversal) >= 0
    requires Count(db.entries, i, RefundReversal) == 0 <==> Total(db.entries, i, RefundReversal) == 0
    requires Count(db.entries, i, RefundRecovery) == 0 <==> Total(db.entries, i, RefundRecovery) == 0
    ensures BalanceAudit(paid, AddEntry(db.entries, e), i) <==>
              paid.net > 0 && Total(db.entries, i, RefundReversal) == 0
  {
    hide HasEntry, Total, Count;
    EntryAdded(db.entries, e, i, Credit);
    EntryAdded(db.entries, e, i, PayoutDebit);
    EntryAdded(db.entries, e, i, RefundReversal);
    EntryAdded(db.entries, e, i, RefundRecovery);
    NoDebit(db.entries, i);
  }

  lemma {:induction false} NoDebit(entries: seq<Entry>, i: nat)
    ensures Count(entries, i, PayoutDebit) == 0 ==> Total(entries, i, PayoutDebit) == 0
  {
    if entries != [] { NoDebit(entries[..|entries| - 1], i); }
  }

  /** Delivery frees a held payout whose payment was settled before; it writes no entry. */
  lemma DeliveryFrees(db: Db, seller: int, i: nat)
    requires MarkDelivered(db, seller, i, true).error.None?
    ensures i < |db.payouts|
    ensures var p, after := db.payouts[i], MarkDelivered(db, seller, i, true).db;
            && after.entries == db.entries
            && after.payouts
               == (if p.status == Held && p.settlementRef.Some?
                   then db.payouts[i := p.(status := Eligible, eligibleAt := true)] else db.payouts)
  {
    assert db.payouts[i := db.payouts[i]] == db.payouts;
  }

  /** The audit can pass: a held payout is credited, or worth nothing before its order is complete; an open one has its
      credit; a reversed one has it, or has nothing left. */
  predicate MaySettle(db: Db, i: nat)
    requires i < |db.orders| && i < |db.payouts|
  {
    match db.payouts[i].status
    case Held => db.orders[i].status == Completed || db.payouts[i].net == 0
    case Reversed => Total(db.entries, i, Credit) == db.payouts[i].net + Total(db.entries, i, RefundReversal)
    case _ => true
  }

  /** Main result: the payment of an order under way is settled when it is verified and the audit can pass; a completed
      order's held payout is credited with its net. */
  lemma SettleOrderIff(db: Db, seller: int, i: nat, reference: string, verified: bool)
    requires Inv(db) && Owned(db, seller, i)
    ensures var o, p, reply := db.orders[i], db.payouts[i], Settle(db, seller, i, reference, verified, true);
            && (reply.error.None? <==>
                  UnderWay(o.status) && o.paymentRef.Some? && verified && MaySettle(db, i))
            && (reply.error.None? && p.status == PaidOut ==> reply.db == db)
            && (reply.error.None? && p.status != PaidOut ==>
                  var q := p.(paymentRef := o.paymentRef, settlementRef := Some(reference));
                  var credited := p.status == Held && o.status == Completed;
                  && reply.db.payouts
                     == db.payouts[i := if credited then q.(status := Eligible, eligibleAt := true) else q]
                  && reply.db == db.(payouts := reply.db.payouts, entries := reply.db.entries)
                  && Balance(reply.db.entries, p.account)
                     == Balance(db.entries, p.account) + if credited then p.net else 0)
  {
    var p := db.payouts[i];
    var e := EntryFor(db, i, Credit, p.net, "settlement:" + reference);
    AuditOpen(db, i);
    if Count(db.entries, i, Credit) == 0 { NoEntry(db.entries, i, Credit, e.source); }
    CreditAudit(db, i, e);
    if p.net > 0 { BalanceAdded(db.entries, e, p.account); }
    hide Inv, HasEntry, Balance, Total, Count;
  }

  lemma CreditAudit(db: Db, i: nat, e: Entry)
    requires i < |db.orders| && i < |db.payouts| && RowInv(db.orders[i], db.payouts[i], db.entries, i)
    requires e.payout == i && e.kind == Credit && e.amount == db.payouts[i].net
    requires Count(db.entries, i, Credit) == 0 ==> !HasEntry(db.entries, i, Credit, e.source)
    requires Total(db.entries, i, RefundReversal) >= 0
    requires Count(db.entries, i, RefundReversal) == 0 <==> Total(db.entries, i, RefundReversal) == 0
    requires Count(db.entries, i, Credit) == 0 <==> Total(db.entries, i, Credit) == 0
    ensures db.payouts[i].status == Held ==>
              && AddEntry(db.entries, e) == (if db.payouts[i].net > 0 then db.entries + [e] else db.entries)
              && forall q: Payout :: q.status == Eligible && q.net == db.payouts[i].net ==>
                   BalanceAudit(q, AddEntry(db.entries, e), i)
  {
    hide HasEntry, Total, Count;
    if db.payouts[i].status == Held {
      EntryAdded(db.entries, e, i, Credit);
      EntryAdded(db.entries, e, i, PayoutDebit);
      EntryAdded(db.entries, e, i, RefundReversal);
      EntryAdded(db.entries, e, i, RefundRecovery);
    }
  }
}
