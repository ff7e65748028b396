/** Which refunds are created and completed: exact conditions, and what each call writes. */
module RefundCalls {
  import opened Outcomes
  import opened SellerLedger

  lemma FoundIff(refunds: seq<Refund>, reference: string)
    ensures FindRefund(refunds, reference) < |refunds| <==> exists f :: f in refunds && f.reference == reference
  {
    var k := FindRefund(refunds, reference);
    if k < |refunds| { assert refunds[k] in refunds; }
  }

  /** Main result: a refund of a captured payment is created under a new reference as long as it fits what is left of
      the payment; it is not completed yet. */
  lemma CreateRefundIff(db: Db, i: nat, reference: string, amount: int, allowed: bool)
    ensures var reply := CreateRefund(db, i, reference, amount, allowed);
            && (reply.error.None? <==>
                  && i < |db.payments| && db.payments[i].Some? && allowed && !db.payments[i].value.refunded
                  && 0 < amount <= db.payments[i].value.amount
                  && RefundedTotal(db.refunds, i) + amount <= db.payments[i].value.amount
                  && forall f :: f in db.refunds ==> f.reference != reference)
            && (reply.error.None? ==>
                  reply.db == db.(refunds := db.refunds + [Refund(reference, i, amount, None)]))
            && (reply.error.Some? ==> reply.db == db)
  {
    FoundIff(db.refunds, reference);
    hide RefundedTotal, FindRefund;
  }

  /** Main result: an inspected return of a paid order is granted a refund when the refund can be created; the return
      names it. */
  lemma ApproveIff(db: Db, seller: int, r: nat, reference: string, amount: int, allowed: bool)
    requires r < |db.requests| && Owned(db, seller, db.requests[r].order)
    ensures var i := db.requests[r].order;
            var reply := ApproveRefund(db, seller, r, reference, amount, allowed);
            && (reply.error.None? <==>
                  && db.requests[r].status == Inspected && db.orders[i].paymentRef.Some?
                  && CreateRefund(db, i, reference, amount, allowed).error.None?)
            && (reply.error.None? ==>
                  reply.db
                  == db.(refunds := db.refunds + [Refund(reference, i, amount, None)],
                         requests := db.requests[r := Return(i, RefundApproved, Some(reference))]))
            && (reply.error.Some? ==> reply.db == db)
  {
    CreateRefundIff(db, db.requests[r].order, reference, amount, allowed);
    hide CreateRefund, RefundedTotal;
  }

  /** No other refund carries the provider's id. */
  predicate IdIsFree(refunds: seq<Refund>, k: nat, providerId: string) {
    forall j :: 0 <= j < |refunds| && j != k ==> refunds[j].providerId != Some(providerId)
  }

  /** What completing the refund at k adds to what has been refunded. */
  lemma {:induction false} RefundedMore(refunds: seq<Refund>, k: nat, providerId: string, i: nat)
    requires k < |refunds| && refunds[k].providerId.None?
    ensures RefundedTotal(refunds[k := refunds[k].(providerId := Some(providerId))], i)
            == RefundedTotal(refunds, i) + if refunds[k].order == i then refunds[k].amount else 0
  {
    var n, f := |refunds| - 1, refunds[k].(providerId := Some(providerId));
    if k == n {
      assert refunds[k := f][..n] == refunds[..n];
    } else {
      assert refunds[k := f][..n] == refunds[..n][k := f];
      RefundedMore(refunds[..n], k, providerId, i);
    }
  }

  /** Main result: an open refund is completed under an id of its own; the payment counts as refunded exactly when the
      completed refunds add up to it. The same id again changes nothing. */
  lemma PaymentRefundIff(db: Db, k: nat, providerId: string, allowed: bool)
    requires k < |db.refunds|
    ensures var f := db.refunds[k]; var i := f.order;
            var reply := CompletePaymentRefund(db, k, providerId, allowed);
            && (reply.error.None? <==>
                  if f.providerId.Some? then f.providerId == Some(providerId)
                  else providerId != "" && i < |db.payments| && db.payments[i].Some? && allowed
                       && IdIsFree(db.refunds, k, providerId))
            && (reply.error.None? && f.providerId.None? ==>
                  && i < |db.payments| && db.payments[i].Some?
                  && var p := db.payments[i].value;
                     reply.db
                     == db.(refunds := db.refunds[k := f.(providerId := Some(providerId))],
                            payments := db.payments[i := Some(p.(refunded :=
                              p.refunded || RefundedTotal(db.refunds, i) + f.amount == p.amount))]))
            && (reply.error.Some? || f.providerId.Some? ==> reply.db == db)
  {
    if db.refunds[k].providerId.None? { RefundedMore(db.refunds, k, providerId, db.refunds[k].order); }
    hide RefundedTotal;
  }
}
