/** What every step of the seller ledger keeps. */
module SellerInvariant {
  import opened Outcomes
  import opened SellerLedger

  // ---------------------------------------------------------------- the invariant

  /** One payout and its entries. */
  ghost predicate PayoutInv(p: Payout, entries: seq<Entry>, i: nat) {
    var credit, reversal := Total(entries, i, Credit), Total(entries, i, RefundReversal);
    && p.net >= 0 && PayoutConstraint(p)
    && Count(entries, i, Credit) <= 1
    && (p.status != PaidOut ==> Count(entries, i, PayoutDebit) == 0 && Count(entries, i, RefundRecovery) == 0)
    && match p.status
       case Held =>
         && !p.eligibleAt && Count(entries, i, Credit) == 0 && Count(entries, i, RefundReversal) == 0
         && (p.settlementRef.Some? ==> p.net == 0)
       case PaidOut =>
         && Count(entries, i, Credit) == 1 && Count(entries, i, PayoutDebit) == 1
         && Count(entries, i, RefundReversal) == 0
         && credit == p.net == Total(entries, i, PayoutDebit)
         && 0 <= Total(entries, i, RefundRecovery) <= p.net
       case Reversed =>
         credit == p.net + reversal || (Count(entries, i, Credit) == 0 && Count(entries, i, RefundReversal) == 0)
       case _ => p.eligibleAt && credit == p.net + reversal
  }

  ghost predicate RowInv(o: Order, p: Payout, entries: seq<Entry>, i: nat) {
    && PayoutInv(p, entries, i)
    && p.account == o.account
    && (o.status == PendingPayment ==> p.status == Held)
  }

  ghost predicate RowsInv(orders: seq<Order>, payouts: seq<Payout>, entries: seq<Entry>) {
    |orders| == |payouts| && forall i :: 0 <= i < |payouts| ==> RowInv(orders[i], payouts[i], entries, i)
  }

  /** Exactly the paid payouts carry an external reference, and no two carry the same. */
  ghost predicate ExternalInv(payouts: seq<Payout>) {
    && (forall i :: 0 <= i < |payouts| ==> (payouts[i].externalRef.Some? <==> payouts[i].status == PaidOut))
    && (forall i, j :: 0 <= i < j < |payouts| && payouts[i].externalRef.Some? ==>
        payouts[i].externalRef != payouts[j].externalRef)
  }

  ghost predicate EntryInv(e: Entry, payouts: seq<Payout>) {
    e.payout < |payouts| && e.account == payouts[e.payout].account && e.amount > 0
  }

  ghost predicate EntriesInv(payouts: seq<Payout>, entries: seq<Entry>) {
    forall e :: e in entries ==> EntryInv(e, payouts)
  }

  ghost predicate Known(refunds: seq<Refund>, reference: string) { FindRefund(refunds, reference) < |refunds| }

  predicate FromRefund(e: Entry) { e.kind == RefundReversal || e.kind == RefundRecovery }

  /** A refund has left no trace in the ledger. */
  ghost predicate Untouched(entries: seq<Entry>, reference: string) {
    forall e :: e in entries && FromRefund(e) ==> e.source != reference
  }

  ghost predicate RequestInv(x: Return, n: nat, refunds: seq<Refund>, entries: seq<Entry>) {
    && x.order < n
    && (x.refundRef.Some? ==> Known(refunds, x.refundRef.value))
    && (x.status in {Requested, Approved, Pickup, Received, Inspected} ==> x.refundRef.None?)
    && (x.status == RefundApproved && x.refundRef.Some? ==> Untouched(entries, x.refundRef.value))
  }

  ghost predicate RequestsInv(n: nat, requests: seq<Return>, refunds: seq<Refund>, entries: seq<Entry>) {
    && (forall r :: 0 <= r < |requests| ==> RequestInv(requests[r], n, refunds, entries))
    && (forall r, s :: 0 <= r < s < |requests| && requests[r].refundRef.Some? ==>
        requests[r].refundRef != requests[s].refundRef)
  }

  /** The refund entries name refunds, each refund at most once. */
  ghost predicate SourcesInv(refunds: seq<Refund>, entries: seq<Entry>) {
    && (forall e :: e in entries && FromRefund(e) ==> Known(refunds, e.source))
    && (forall a, b :: 0 <= a < b < |entries| && FromRefund(entries[a]) && FromRefund(entries[b]) ==>
        entries[a].source != entries[b].source)
  }

  /** The orders, payouts and entries. */
  ghost predicate LedgerInv(db: Db) {
    && |db.orders| == |db.payments| == |db.disputes|
    && RowsInv(db.orders, db.payouts, db.entries)
    && ExternalInv(db.payouts)
    && EntriesInv(db.payouts, db.entries)
  }

  /** The returns, their refunds and the entries those left. */
  ghost predicate ReturnsInv(db: Db) {
    && RequestsInv(|db.orders|, db.requests, db.refunds, db.entries)
    && SourcesInv(db.refunds, db.entries)
  }

  ghost predicate Inv(db: Db) { LedgerInv(db) && ReturnsInv(db) }

  lemma StartIsInv(db: Db)
    requires Start(db)
    ensures Inv(db)
  {
  }

  // ---------------------------------------------------------------- totals and counts

  /** What one more entry does to the totals and counts of a payout. */
  lemma EntryAdded(entries: seq<Entry>, e: Entry, i: nat, kind: Kind)
    ensures Total(entries + [e], i, kind)
            == Total(entries, i, kind) + (if e.payout == i && e.kind == kind then e.amount else 0)
    ensures Count(entries + [e], i, kind)
            == Count(entries, i, kind) + (if e.payout == i && e.kind == kind then 1 else 0)
  {
    assert (entries + [e])[..|entries|] == entries;
  }

  lemma {:induction false} TotalsFromCounts(entries: seq<Entry>, i: nat, kind: Kind)
    requires forall e :: e in entries ==> e.amount > 0
    ensures Total(entries, i, kind) >= 0
    ensures Count(entries, i, kind) == 0 <==> Total(entries, i, kind) == 0
  {
    if entries != [] {
      TotalsFromCounts(entries[..|entries| - 1], i, kind);
      assert entries[|entries| - 1] in entries;
    }
  }

  lemma {:induction false} CountedEntry(entries: seq<Entry>, e: Entry)
    requires e in entries
    ensures Count(entries, e.payout, e.kind) > 0
  {
    var n := |entries| - 1;
    if entries[n] != e {
      assert entries == entries[..n] + [entries[n]];
      CountedEntry(entries[..n], e);
    }
  }

  lemma NoEntry(entries: seq<Entry>, i: nat, kind: Kind, source: string)
    requires Count(entries, i, kind) == 0
    ensures !HasEntry(entries, i, kind, source)
  {
    forall e | e in entries ensures !(e.payout == i && e.kind == kind) {
      CountedEntry(entries, e);
    }
  }

  /** An entry for another payout leaves the invariant of payout j alone. */
  lemma OtherPayout(o: Order, p: Payout, entries: seq<Entry>, e: Entry, j: nat)
    requires RowInv(o, p, entries, j) && e.payout != j
    ensures RowInv(o, p, AddEntry(entries, e), j)
  {
    EntryAdded(entries, e, j, Credit);
    EntryAdded(entries, e, j, PayoutDebit);
    EntryAdded(entries, e, j, RefundReversal);
    EntryAdded(entries, e, j, RefundRecovery);
  }

  /** Everything the ledger of payout i gains by an entry. */
  lemma OwnPayout(entries: seq<Entry>, e: Entry)
    ensures forall kind ::
              Total(entries + [e], e.payout, kind)
                  == Total(entries, e.payout, kind) + (if kind == e.kind then e.amount else 0)
    ensures forall kind ::
              Count(entries + [e], e.payout, kind) == Count(entries, e.payout, kind) + (if kind == e.kind then 1 else 0)
  {
    forall kind
      ensures Total(entries + [e], e.payout, kind)
              == Total(entries, e.payout, kind) + (if kind == e.kind then e.amount else 0)
      ensures Count(entries + [e], e.payout, kind) == Count(entries, e.payout, kind) + (if kind == e.kind then 1 else 0)
    {
      EntryAdded(entries, e, e.payout, kind);
    }
  }

  lemma Positive(payouts: seq<Payout>, entries: seq<Entry>)
    requires EntriesInv(payouts, entries)
    ensures forall e :: e in entries ==> e.amount > 0
  {
  }

  // ---------------------------------------------------------------- frames

  lemma SetRow(orders: seq<Order>, payouts: seq<Payout>, entries: seq<Entry>, i: nat, o: Order, p: Payout)
    requires RowsInv(orders, payouts, entries) && i < |orders| && RowInv(o, p, entries, i)
    ensures RowsInv(orders[i := o], payouts[i := p], entries)
  {
    hide RowInv;
  }

  lemma SetRowAndEntry(orders: seq<Order>, payouts: seq<Payout>, entries: seq<Entry>, o: Order, p: Payout, e: Entry)
    requires RowsInv(orders, payouts, entries) && e.payout < |orders| && RowInv(o, p, AddEntry(entries, e), e.payout)
    ensures RowsInv(orders[e.payout := o], payouts[e.payout := p], AddEntry(entries, e))
  {
    hide RowInv, AddEntry;
    forall j | 0 <= j < |payouts| && j != e.payout ensures RowInv(orders[j], payouts[j], AddEntry(entries, e), j) {
      OtherPayout(orders[j], payouts[j], entries, e, j);
    }
  }

  lemma SetExternal(payouts: seq<Payout>, i: nat, p: Payout)
    requires ExternalInv(payouts) && i < |payouts| && (p.externalRef.Some? <==> p.status == PaidOut)
    requires p.externalRef == payouts[i].externalRef || forall k :: 0 <= k < |payouts| && k != i ==>
               payouts[k].externalRef != p.externalRef
    ensures ExternalInv(payouts[i := p])
  {
  }

  lemma SetEntries(payouts: seq<Payout>, entries: seq<Entry>, i: nat, p: Payout)
    requires EntriesInv(payouts, entries) && i < |payouts| && p.account == payouts[i].account
    ensures EntriesInv(payouts[i := p], entries)
  {
  }

  lemma AddToEntries(payouts: seq<Payout>, entries: seq<Entry>, e: Entry)
    requires EntriesInv(payouts, entries) && e.payout < |payouts| && e.account == payouts[e.payout].account
    ensures EntriesInv(payouts, AddEntry(entries, e))
  {
  }

  /** Entries that do not come from a refund do not concern the returns. */
  lemma PlainEntry(n: nat, requests: seq<Return>, refunds: seq<Refund>, entries: seq<Entry>, e: Entry)
    requires RequestsInv(n, requests, refunds, entries) && SourcesInv(refunds, entries) && !FromRefund(e)
    ensures RequestsInv(n, requests, refunds, AddEntry(entries, e)) && SourcesInv(refunds, AddEntry(entries, e))
  {
    hide Known;
    var added := AddEntry(entries, e);
    assert forall x :: x in added && FromRefund(x) ==> x in entries;
    forall r | 0 <= r < |requests| ensures RequestInv(requests[r], n, refunds, added) {
      assert RequestInv(requests[r], n, refunds, entries);
    }
  }

  /** A step on the order and payout at i, without an entry. */
  lemma KeepsOnRow(db: Db, i: nat, o: Order, p: Payout)
    requires LedgerInv(db) && i < |db.orders|
    requires RowInv(o, p, db.entries, i) && p.account == db.payouts[i].account
    requires p.externalRef == db.payouts[i].externalRef && (p.status == PaidOut <==> db.payouts[i].status == PaidOut)
    ensures LedgerInv(db.(orders := db.orders[i := o], payouts := db.payouts[i := p]))
  {
    hide RowInv;
    SetRow(db.orders, db.payouts, db.entries, i, o, p);
    SetExternal(db.payouts, i, p);
    SetEntries(db.payouts, db.entries, i, p);
  }

  /** A step on an order alone. */
  lemma KeepsOnOrder(db: Db, i: nat, o: Order)
    requires LedgerInv(db) && i < |db.orders|
    requires o.account == db.orders[i].account && (o.status == PendingPayment ==> db.orders[i].status == PendingPayment)
    ensures LedgerInv(db.(orders := db.orders[i := o]))
  {
    assert RowInv(db.orders[i], db.payouts[i], db.entries, i);
    assert db.payouts[i := db.payouts[i]] == db.payouts;
    KeepsOnRow(db, i, o, db.payouts[i]);
  }

  // ---------------------------------------------------------------- steps on orders and payouts

  lemma OrderStepsKeepInv(db: Db, op: Op)
    requires LedgerInv(db)
    requires op.OpProcessing? || op.OpShipped? || op.OpOpenDispute? || op.OpResolveDispute?
    ensures LedgerInv(Perform(db, op).db)
    ensures ReturnsInv(db) ==> ReturnsInv(Perform(db, op).db)
  {
    hide RowsInv, ExternalInv, EntriesInv, RequestsInv, SourcesInv;
    var i := op.i;
    var db' := Perform(db, op).db;
    if Perform(db, op).error.None? {
      KeepsOnOrder(db, i, db'.orders[i]);
    }
  }

  lemma PayoutStepsKeepInv(db: Db, op: Op)
    requires LedgerInv(db)
    requires op.OpCapture? || op.OpMarkPaid? || op.OpCancel? || op.OpRequestPayout?
    ensures LedgerInv(Perform(db, op).db)
    ensures ReturnsInv(db) ==> ReturnsInv(Perform(db, op).db)
  {
    hide ExternalInv, EntriesInv, RequestsInv, SourcesInv;
    hide MarkProcessing, MarkShipped, MarkDelivered, Settle, MarkPayoutPaid, OpenDispute, ResolveDispute;
    hide RequestReturn, AdvanceReturn, ApproveRefund, CompleteReturnRefund, CreateRefund, CompletePaymentRefund;
    var i := op.i;
    var db' := Perform(db, op).db;
    if Perform(db, op).error.None? {
      assert RowInv(db.orders[i], db.payouts[i], db.entries, i);
      hide RowsInv;
      KeepsOnRow(db, i, db'.orders[i], db'.payouts[i]);
    }
  }

  lemma DeliveredKeepsInv(db: Db, seller: int, i: nat, delivered: bool)
    requires LedgerInv(db)
    ensures LedgerInv(MarkDelivered(db, seller, i, delivered).db)
    ensures ReturnsInv(db) ==> ReturnsInv(MarkDelivered(db, seller, i, delivered).db)
  {
    hide ExternalInv, EntriesInv, RequestsInv, SourcesInv;
    var after := MarkDelivered(db, seller, i, delivered);
    if after.error.None? {
      assert RowInv(db.orders[i], db.payouts[i], db.entries, i);
      hide RowsInv;
      Positive(db.payouts, db.entries);
      TotalsFromCounts(db.entries, i, Credit);
      TotalsFromCounts(db.entries, i, RefundReversal);
      KeepsOnRow(db, i, after.db.orders[i], after.db.payouts[i]);
    }
  }

  lemma SettleKeepsInv(db: Db, seller: int, i: nat, settlementRef: string, verified: bool, orderAudit: bool)
    requires LedgerInv(db)
    ensures LedgerInv(Settle(db, seller, i, settlementRef, verified, orderAudit).db)
    ensures ReturnsInv(db) ==> ReturnsInv(Settle(db, seller, i, settlementRef, verified, orderAudit).db)
  {
    hide EntriesInv, RequestsInv, SourcesInv;
    var after := Settle(db, seller, i, settlementRef, verified, orderAudit);
    if after.error.None? && after.db != db {
      var o, p, p' := db.orders[i], db.payouts[i], after.db.payouts[i];
      assert RowInv(o, p, db.entries, i);
      assert db.orders[i := o] == db.orders;
      hide RowsInv;
      if o.status == Completed && p.status == Held {
        var e := EntryFor(db, i, Credit, p.net, "settlement:" + settlementRef);
        NoEntry(db.entries, i, Credit, e.source);
        OwnPayout(db.entries, e);
        assert RowInv(o, p', AddEntry(db.entries, e), i);
        KeepsWithEntry(db, o, p', e);
      } else {
        Positive(db.payouts, db.entries);
        TotalsFromCounts(db.entries, i, Credit);
        TotalsFromCounts(db.entries, i, RefundReversal);
        KeepsOnRow(db, i, o, p');
      }
    }
  }

  /** A step on one payout that leaves an entry. */
  lemma EntryKeepsLedger(db: Db, o: Order, p: Payout, e: Entry)
    requires LedgerInv(db) && e.payout < |db.orders|
    requires RowInv(o, p, AddEntry(db.entries, e), e.payout) && p.account == e.account == db.payouts[e.payout].account
    requires p.externalRef.Some? <==> p.status == PaidOut
    requires p.externalRef == db.payouts[e.payout].externalRef
             || forall k :: 0 <= k < |db.payouts| && k != e.payout ==> db.payouts[k].externalRef != p.externalRef
    ensures LedgerInv(db.(orders := db.orders[e.payout := o], payouts := db.payouts[e.payout := p],
                          entries := AddEntry(db.entries, e)))
  {
    hide RowInv, AddEntry, EntriesInv;
    SetRowAndEntry(db.orders, db.payouts, db.entries, o, p, e);
    SetExternal(db.payouts, e.payout, p);
    SetEntries(db.payouts, db.entries, e.payout, p);
    AddToEntries(db.payouts[e.payout := p], db.entries, e);
  }

  /** A step on one payout that leaves a credit or a debit. */
  lemma KeepsWithEntry(db: Db, o: Order, p: Payout, e: Entry)
    requires LedgerInv(db) && e.payout < |db.orders| && !FromRefund(e)
    requires RowInv(o, p, AddEntry(db.entries, e), e.payout) && p.account == e.account == db.payouts[e.payout].account
    requires p.externalRef.Some? <==> p.status == PaidOut
    requires p.externalRef == db.payouts[e.payout].externalRef
             || forall k :: 0 <= k < |db.payouts| && k != e.payout ==> db.payouts[k].externalRef != p.externalRef
    ensures var after := db.(orders := db.orders[e.payout := o], payouts := db.payouts[e.payout := p],
                             entries := AddEntry(db.entries, e));
            LedgerInv(after) && (ReturnsInv(db) ==> ReturnsInv(after))
  {
    EntryKeepsLedger(db, o, p, e);
    hide RowInv, AddEntry, RequestsInv, SourcesInv, LedgerInv;
    if ReturnsInv(db) { PlainEntry(|db.orders|, db.requests, db.refunds, db.entries, e); }
  }

  lemma PayoutPaidKeepsInv(db: Db, seller: int, i: nat, externalRef: string, allowed: bool, orderAudit: bool)
    requires LedgerInv(db)
    ensures LedgerInv(MarkPayoutPaid(db, seller, i, externalRef, allowed, orderAudit).db)
    ensures ReturnsInv(db) ==> ReturnsInv(MarkPayoutPaid(db, seller, i, externalRef, allowed, orderAudit).db)
  {
    hide ExternalInv, EntriesInv, RequestsInv, SourcesInv, Balance;
    var after := MarkPayoutPaid(db, seller, i, externalRef, allowed, orderAudit);
    if after.error.None? && after.db != db {
      var o, p, p' := db.orders[i], db.payouts[i], after.db.payouts[i];
      var e := EntryFor(db, i, PayoutDebit, p.net, if p.payoutRef.Some? then p.payoutRef.value else externalRef);
      assert RowInv(o, p, db.entries, i);
      assert db.orders[i := o] == db.orders;
      hide RowsInv;
      Positive(db.payouts, db.entries);
      PaidRow(o, p, db.entries, e, externalRef);
      KeepsWithEntry(db, o, p', e);
    }
  }

  /** The payout that passed the balance audit after its debit. */
  lemma PaidRow(o: Order, p: Payout, entries: seq<Entry>, e: Entry, externalRef: string)
    requires RowInv(o, p, entries, e.payout) && p.status == InProcess && o.status != PendingPayment
    requires e.kind == PayoutDebit && e.amount == p.net && forall x :: x in entries ==> x.amount > 0
    requires BalanceAudit(p.(status := PaidOut, externalRef := Some(externalRef)), AddEntry(entries, e), e.payout)
    ensures RowInv(o, p.(status := PaidOut, externalRef := Some(externalRef)), AddEntry(entries, e), e.payout)
  {
    OwnPayout(entries, e);
    NoEntry(entries, e.payout, PayoutDebit, e.source);
    assert AddEntry(entries, e) == entries + [e];
    TotalsFromCounts(entries, e.payout, Credit);
    TotalsFromCounts(entries, e.payout, RefundRecovery);
  }

  // ---------------------------------------------------------------- returns and refunds

  lemma RequestKeepsInv(db: Db, i: nat)
    requires LedgerInv(db)
    ensures LedgerInv(RequestReturn(db, i).db)
    ensures ReturnsInv(db) ==> ReturnsInv(RequestReturn(db, i).db)
  {
    hide RowsInv, ExternalInv, EntriesInv, SourcesInv, Untouched;
  }

  lemma AdvanceKeepsInv(db: Db, r: nat, to: ReturnStatus)
    requires LedgerInv(db)
    ensures LedgerInv(AdvanceReturn(db, r, to).db)
    ensures ReturnsInv(db) ==> ReturnsInv(AdvanceReturn(db, r, to).db)
  {
    hide RowsInv, ExternalInv, EntriesInv, SourcesInv, Untouched;
    if r < |db.requests| && ReturnsInv(db) { assert RequestInv(db.requests[r], |db.orders|, db.refunds, db.entries); }
  }

  /** A refund reference is known exactly when some refund carries it. */
  lemma KnownMeans(refunds: seq<Refund>, reference: string)
    ensures Known(refunds, reference) <==> exists k :: 0 <= k < |refunds| && refunds[k].reference == reference
  {
  }

  /** New refunds and completed refunds leave the known references known. */
  lemma StillKnown(refunds: seq<Refund>, refunds': seq<Refund>, reference: string)
    requires |refunds| <= |refunds'| && forall k :: 0 <= k < |refunds| ==> refunds'[k].reference == refunds[k].reference
    ensures Known(refunds, reference) ==> Known(refunds', reference)
  {
    KnownMeans(refunds, reference);
    KnownMeans(refunds', reference);
    if Known(refunds, reference) {
      var k :| 0 <= k < |refunds| && refunds[k].reference == reference;
      assert refunds'[k].reference == reference;
    }
  }

  lemma MoreRefunds(n: nat, requests: seq<Return>, refunds: seq<Refund>, refunds': seq<Refund>, entries: seq<Entry>)
    requires RequestsInv(n, requests, refunds, entries) && SourcesInv(refunds, entries)
    requires |refunds| <= |refunds'| && forall k :: 0 <= k < |refunds| ==> refunds'[k].reference == refunds[k].reference
    ensures RequestsInv(n, requests, refunds', entries) && SourcesInv(refunds', entries)
  {
    hide Known, Untouched;
    forall r | 0 <= r < |requests| ensures RequestInv(requests[r], n, refunds', entries) {
      assert RequestInv(requests[r], n, refunds, entries);
      if requests[r].refundRef.Some? { StillKnown(refunds, refunds', requests[r].refundRef.value); }
    }
    forall e | e in entries && FromRefund(e) ensures Known(refunds', e.source) {
      StillKnown(refunds, refunds', e.source);
    }
  }

  lemma CreateKeepsInv(db: Db, i: nat, reference: string, amount: int, allowed: bool)
    requires LedgerInv(db)
    ensures LedgerInv(CreateRefund(db, i, reference, amount, allowed).db)
    ensures ReturnsInv(db) ==> ReturnsInv(CreateRefund(db, i, reference, amount, allowed).db)
  {
    hide RowsInv, ExternalInv, EntriesInv, SourcesInv, RequestsInv, RefundedTotal;
    if ReturnsInv(db) {
      MoreRefunds(|db.orders|, db.requests, db.refunds, CreateRefund(db, i, reference, amount, allowed).db.refunds,
                  db.entries);
    }
  }

  lemma ApproveKeepsInv(db: Db, seller: int, r: nat, reference: string, amount: int, allowed: bool)
    requires Inv(db)
    ensures Inv(ApproveRefund(db, seller, r, reference, amount, allowed).db)
  {
    hide RowsInv, ExternalInv, EntriesInv, SourcesInv, RequestsInv, RefundedTotal;
    var after := ApproveRefund(db, seller, r, reference, amount, allowed);
    if after.error.None? {
      NewRefund(|db.orders|, db.requests, db.refunds, db.entries, r, after.db.requests[r],
                after.db.refunds[|db.refunds|]);
    }
  }

  lemma NewRefund(n: nat, requests: seq<Return>, refunds: seq<Refund>, entries: seq<Entry>, r: nat, x: Return,
                  f: Refund)
    requires RequestsInv(n, requests, refunds, entries) && SourcesInv(refunds, entries) && r < |requests|
    requires !Known(refunds, f.reference) && x == Return(requests[r].order, RefundApproved, Some(f.reference))
    ensures RequestsInv(n, requests[r := x], refunds + [f], entries) && SourcesInv(refunds + [f], entries)
  {
    MoreRefunds(n, requests, refunds, refunds + [f], entries);
    assert (refunds + [f])[|refunds|].reference == f.reference;
    KnownMeans(refunds + [f], f.reference);
    assert forall k :: 0 <= k < |requests| ==> RequestInv(requests[k], n, refunds, entries);
    hide Known;
    assert RequestInv(requests[r], n, refunds, entries);
    assert RequestInv(x, n, refunds + [f], entries);
  }

  lemma PaymentRefundKeepsInv(db: Db, k: nat, providerId: string, allowed: bool)
    requires LedgerInv(db) && k < |db.refunds|
    ensures LedgerInv(CompletePaymentRefund(db, k, providerId, allowed).db)
    ensures ReturnsInv(db) ==> ReturnsInv(CompletePaymentRefund(db, k, providerId, allowed).db)
  {
    hide RowsInv, ExternalInv, EntriesInv, SourcesInv, RequestsInv, RefundedTotal;
    if ReturnsInv(db) {
      MoreRefunds(|db.orders|, db.requests, db.refunds, CompletePaymentRefund(db, k, providerId, allowed).db.refunds,
                  db.entries);
    }
  }

  /** The entry of a refund that had left no trace, as its return closes. */
  lemma RefundEntry(n: nat, requests: seq<Return>, refunds: seq<Refund>, entries: seq<Entry>, r: nat, e: Entry)
    requires RequestsInv(n, requests, refunds, entries) && SourcesInv(refunds, entries) && r < |requests|
    requires requests[r].status == RefundApproved && requests[r].refundRef == Some(e.source)
    ensures RequestsInv(n, requests[r := requests[r].(status := RefundedReturn)], refunds, entries + [e])
    ensures SourcesInv(refunds, entries + [e])
  {
    hide Known;
    var x := requests[r].(status := RefundedReturn);
    assert RequestInv(requests[r], n, refunds, entries);
    forall j | 0 <= j < |requests| && j != r ensures RequestInv(requests[j], n, refunds, entries + [e]) {
      assert RequestInv(requests[j], n, refunds, entries);
      assert requests[j].refundRef == Some(e.source) ==> false;
    }
  }

  lemma CloseReturn(n: nat, requests: seq<Return>, refunds: seq<Refund>, entries: seq<Entry>, r: nat)
    requires RequestsInv(n, requests, refunds, entries) && r < |requests|
    ensures RequestsInv(n, requests[r := requests[r].(status := RefundedReturn)], refunds, entries)
  {
    hide Known, Untouched;
    assert RequestInv(requests[r], n, refunds, entries);
  }

  /** A credited payout that would lose net although the ledger already holds the reversal of the refund. */
  predicate Loses(p: Payout, entries: seq<Entry>, i: nat, reference: string) {
    p.status == Eligible && p.net > 0 && HasEntry(entries, i, RefundReversal, reference)
  }

  /** A held or eligible payout gives back what the refund took, or nothing was credited yet. */
  lemma ReversalRow(o: Order, p: Payout, entries: seq<Entry>, e: Entry, amount: int)
    requires RowInv(o, p, entries, e.payout) && (p.status == Held || p.status == Eligible) && o.status != PendingPayment
    requires forall x :: x in entries ==> x.amount > 0
    requires amount > 0 && PayoutConstraint(ReducePayout(p, amount)) && !Loses(p, entries, e.payout, e.source)
    requires e.kind == RefundReversal && e.amount == p.net - ReducePayout(p, amount).net
    ensures RowInv(o, ReducePayout(p, amount), if p.eligibleAt then AddEntry(entries, e) else entries, e.payout)
  {
    OwnPayout(entries, e);
    TotalsFromCounts(entries, e.payout, Credit);
    TotalsFromCounts(entries, e.payout, RefundReversal);
  }

  /** A paid payout owes the refund back, up to its net. */
  lemma RecoveryRow(o: Order, p: Payout, entries: seq<Entry>, e: Entry, amount: int)
    requires RowInv(o, p, entries, e.payout) && p.status == PaidOut && o.status != PendingPayment
    requires forall x :: x in entries ==> x.amount > 0
    requires e.kind == RefundRecovery && e.amount == Min(amount, Max0(p.net - Total(entries, e.payout, RefundRecovery)))
    ensures RowInv(o, p, AddEntry(entries, e), e.payout)
  {
    OwnPayout(entries, e);
    TotalsFromCounts(entries, e.payout, RefundRecovery);
  }

  function RefundedOrder(db: Db, i: nat): Order
    requires i < |db.orders| && i < |db.payments|
  {
    db.orders[i].(status := if db.payments[i].Some?
                  && db.payments[i].value.refunded then Refunded else PartiallyRefunded)
  }

  function CloseRequest(db: Db, r: nat): Db
    requires r < |db.requests|
  {
    db.(requests := db.requests[r := db.requests[r].(status := RefundedReturn)])
  }

  /** What the invariant says about one row. */
  lemma RowOf(db: Db, i: nat)
    requires LedgerInv(db) && i < |db.orders|
    ensures i < |db.payouts| && i < |db.payments| && RowInv(db.orders[i], db.payouts[i], db.entries, i)
    ensures db.payouts[i].externalRef.Some? <==> db.payouts[i].status == PaidOut
    ensures forall e :: e in db.entries ==> e.amount > 0
  {
    hide RowInv, EntryInv;
    Positive(db.payouts, db.entries) by { assert EntriesInv(db.payouts, db.entries); }
  }

  lemma ApplyToOpenPayout(db: Db, amount: int, i: nat, reference: string)
    requires LedgerInv(db) && i < |db.orders| && i < |db.payouts| && i < |db.payments| && amount > 0
    requires db.payouts[i].status == Held || db.payouts[i].status == Eligible
    requires PayoutConstraint(ReducePayout(db.payouts[i], amount)) && !Loses(db.payouts[i], db.entries, i, reference)
    ensures LedgerInv(ApplyRefund(db, i, amount, reference))
  {
    hide LedgerInv, AddEntry, HasEntry, Total, Count;
    RowOf(db, i);
    var p, o, p' := db.payouts[i], RefundedOrder(db, i), ReducePayout(db.payouts[i], amount);
    var e := EntryFor(db, i, RefundReversal, p.net - p'.net, reference);
    ReversalRow(o, p, db.entries, e, amount);
    hide RowInv, PayoutConstraint;
    if p.eligibleAt { EntryKeepsLedger(db, o, p', e); } else { KeepsOnRow(db, i, o, p'); }
  }

  lemma ApplyToPaidPayout(db: Db, amount: int, i: nat, reference: string)
    requires LedgerInv(db) && i < |db.orders| && i < |db.payouts| && i < |db.payments| && amount > 0
    requires db.payouts[i].status == PaidOut
    ensures LedgerInv(ApplyRefund(db, i, amount, reference))
  {
    hide LedgerInv, AddEntry, HasEntry, Total, Count;
    RowOf(db, i);
    var p, o := db.payouts[i], RefundedOrder(db, i);
    var e := EntryFor(db, i, RefundRecovery, Min(amount, Max0(p.net - Total(db.entries, i, RefundRecovery))),
                      reference);
    assert RowInv(o, p, db.entries, i);
    RecoveryRow(o, p, db.entries, e, amount);
    assert db.payouts[i := p] == db.payouts;
    hide RowInv;
    EntryKeepsLedger(db, o, p, e);
  }

  /** The seller-side effect of a refund, unless it takes net without an entry. */
  lemma ApplyKeepsLedger(db: Db, amount: int, i: nat, reference: string)
    requires LedgerInv(db) && i < |db.orders| && i < |db.payouts| && i < |db.payments| && amount > 0
    requires PayoutConstraint(ApplyRefund(db, i, amount, reference).payouts[i])
    requires !Loses(db.payouts[i], db.entries, i, reference)
    ensures LedgerInv(ApplyRefund(db, i, amount, reference))
  {
    var p := db.payouts[i];
    if p.status == Held || p.status == Eligible {
      assert ApplyRefund(db, i, amount, reference).payouts[i] == ReducePayout(p, amount);
      hide LedgerInv, ApplyRefund;
      ApplyToOpenPayout(db, amount, i, reference);
    } else if p.status == PaidOut {
      hide LedgerInv, ApplyRefund;
      ApplyToPaidPayout(db, amount, i, reference);
    } else {
      hide LedgerInv;
      KeepsOnOrder(db, i, RefundedOrder(db, i));
    }
  }

  /** The entries after the effect of a refund: at most one more, and that one names the refund. */
  lemma ApplyEntries(db: Db, amount: int, i: nat, reference: string)
    requires i < |db.orders| && i < |db.payouts| && i < |db.payments|
    ensures var after := ApplyRefund(db, i, amount, reference);
            && after.requests == db.requests && after.refunds == db.refunds && |after.orders| == |db.orders|
            && (after.entries == db.entries
                || (|after.entries| == |db.entries| + 1 && after.entries == db.entries + [after.entries[|db.entries|]]
                    && FromRefund(after.entries[|db.entries|]) && after.entries[|db.entries|].source == reference))
  {
    hide Total, HasEntry;
  }

  /** The seller-side effect of a refund, with its return closed. */
  lemma ApplyKeepsInv(db: Db, r: nat, amount: int, i: nat, reference: string)
    requires Inv(db) && r < |db.requests| && i == db.requests[r].order < |db.orders| && amount > 0
    requires db.requests[r].status == RefundApproved && db.requests[r].refundRef == Some(reference)
    requires i < |db.payouts| && i < |db.payments| && PayoutConstraint(ApplyRefund(db, i, amount, reference).payouts[i])
    ensures Inv(CloseRequest(ApplyRefund(db, i, amount, reference), r))
  {
    hide LedgerInv, ApplyRefund, PayoutConstraint, Known;
    assert RequestInv(db.requests[r], |db.orders|, db.refunds, db.entries);
    ApplyEntries(db, amount, i, reference);
    ApplyKeepsLedger(db, amount, i, reference);
    var after := ApplyRefund(db, i, amount, reference);
    hide RequestsInv, SourcesInv, Untouched;
    LedgerIgnoresRequests(after, r);
    CloseReturn(|db.orders|, db.requests, db.refunds, db.entries, r);
    if after.entries != db.entries {
      RefundEntry(|db.orders|, db.requests, db.refunds, db.entries, r, after.entries[|db.entries|]);
    }
  }

  lemma LedgerIgnoresRequests(db: Db, r: nat)
    requires LedgerInv(db) && r < |db.requests|
    ensures LedgerInv(CloseRequest(db, r))
  {
    hide RowsInv, ExternalInv, EntriesInv;
  }

  lemma CompleteKeepsInv(db: Db, seller: int, r: nat, providerId: string, allowed: bool)
    requires Inv(db)
    ensures Inv(CompleteReturnRefund(db, seller, r, providerId, allowed).db)
  {
    hide LedgerInv, SourcesInv, RequestsInv, ApplyRefund, PayoutConstraint, CompletePaymentRefund;
    var after := CompleteReturnRefund(db, seller, r, providerId, allowed);
    if after.db != db {
      var k := FindRefund(db.refunds, db.requests[r].refundRef.value);
      PaymentRefundKeepsInv(db, k, providerId, allowed);
      var mid := CompletePaymentRefund(db, k, providerId, allowed).db;
      if after.error.None? {
        ApplyEntries(mid, db.refunds[k].amount, db.requests[r].order, db.requests[r].refundRef.value);
        ApplyKeepsInv(mid, r, db.refunds[k].amount, db.requests[r].order, db.requests[r].refundRef.value);
      }
    }
  }

  // ---------------------------------------------------------------- runs

  /** The operations that are one transaction, whatever the state of the returns. */
  predicate OneTransaction(op: Op) { !op.OpApproveRefund? && !op.OpCompleteRefund? }

  lemma TransactionKeepsInv(db: Db, op: Op)
    requires LedgerInv(db) && OneTransaction(op)
    ensures LedgerInv(Perform(db, op).db)
    ensures ReturnsInv(db) ==> ReturnsInv(Perform(db, op).db)
  {
    hide LedgerInv, ReturnsInv, CapturePayment, MarkPaid, MarkProcessing, MarkShipped, MarkDelivered, Cancel, Settle,
         RequestPayout;
    hide MarkPayoutPaid, OpenDispute, ResolveDispute, RequestReturn, AdvanceReturn, CreateRefund, CompletePaymentRefund;
    match op
    case OpDelivered(seller, i, delivered) => DeliveredKeepsInv(db, seller, i, delivered);
    case OpSettle(seller, i, settlementRef, verified, audit) =>
      SettleKeepsInv(db, seller, i, settlementRef, verified, audit);
    case OpPayoutPaid(seller, i, externalRef, allowed, audit) =>
      PayoutPaidKeepsInv(db, seller, i, externalRef, allowed, audit);
    case OpRequestReturn(i) => RequestKeepsInv(db, i);
    case OpAdvanceReturn(r, to) => AdvanceKeepsInv(db, r, to);
    case OpCreateRefund(i, reference, amount, allowed) => CreateKeepsInv(db, i, reference, amount, allowed);
    case OpPaymentRefund(k, providerId, allowed) =>
      if k < |db.refunds| { PaymentRefundKeepsInv(db, k, providerId, allowed); }
    case _ =>
      if op.OpProcessing? || op.OpShipped? || op.OpOpenDispute? || op.OpResolveDispute? {
        OrderStepsKeepInv(db, op);
      } else {
        PayoutStepsKeepInv(db, op);
      }
  }

  lemma StepKeepsInv(db: Db, op: Op)
    requires Inv(db)
    ensures Inv(Perform(db, op).db)
  {
    if op.OpApproveRefund? {
      hide Inv, ApproveRefund;
      ApproveKeepsInv(db, op.seller, op.r, op.reference, op.amount, op.allowed);
    } else if op.OpCompleteRefund? {
      hide Inv, CompleteReturnRefund;
      CompleteKeepsInv(db, op.seller, op.r, op.providerId, op.allowed);
    } else {
      hide Perform, LedgerInv, ReturnsInv;
      TransactionKeepsInv(db, op);
    }
  }

  lemma {:induction false} RunKeepsInv(db: Db, ops: seq<Op>)
    requires Inv(db)
    ensures Inv(Run(db, ops))
  {
    hide Inv, Perform;
    if ops != [] {
      RunKeepsInv(db, ops[..|ops| - 1]);
      StepKeepsInv(Run(db, ops[..|ops| - 1]), ops[|ops| - 1]);
    }
  }
}
