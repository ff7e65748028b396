/** Completions of a return that do not overlap: the ledger and its returns stay sound, whatever else comes
    between the commits of a call. */
module LedgerInTurn {
  import opened LedgerOverlap
  import opened Outcomes
  import opened SellerInvariant
  import opened SellerLedger

  // ---------------------------------------------------------------- one completion of a return at a time

  /** No completion of a return starts while another one is in flight, and a cancellation finds its order as it
      left it. */
  predicate Alone(d: Desk, e: Event) {
    && (e.EvComplete? ==> forall a :: a in d.attempts && a.open && a.call.Completing? ==> a.call.r != e.r)
    && (e.EvCancelled? && MayCancel(d, e.a) ==> d.db.orders[d.attempts[e.a].call.i].status == PendingPayment)
  }

  predicate AloneRun(start: Db, events: seq<Event>) {
    events != [] ==>
      AloneRun(start, events[..|events| - 1])
      && Alone(RunAll(Desk(start, []), events[..|events| - 1]), events[|events| - 1])
  }

  /** The refund that a call is about. */
  function RefOf(db: Db, c: Call): Option<string> {
    match c
    case Completing(_, k, _) => if k < |db.refunds| then Some(db.refunds[k].reference) else None
    case Approving(_, reference) => Some(reference)
    case Cancelling(_) => None
  }

  /** The refund of a call in flight has left no trace, and no other return names it. */
  ghost predicate FreshCall(db: Db, c: Call) {
    c.Cancelling? ||
      (&& RefOf(db, c).Some? && Known(db.refunds, RefOf(db, c).value) && Untouched(db.entries, RefOf(db, c).value)
       && forall s :: 0 <= s < |db.requests| && db.requests[s].refundRef == RefOf(db, c) ==> c.Completing? && s == c.r)
  }

  ghost predicate CallsInv(d: Desk) {
    && (forall a :: a in d.attempts && a.open ==> FreshCall(d.db, a.call))
    && forall a, b :: 0 <= a < b < |d.attempts| && d.attempts[a].open && d.attempts[b].open
                      && !d.attempts[a].call.Cancelling? ==>
         RefOf(d.db, d.attempts[a].call) != RefOf(d.db, d.attempts[b].call)
  }

  /** Nothing happens to the refunds that returns name, or to the entries of refunds. */
  ghost predicate Undisturbed(db: Db, after: Db) {
    && |db.refunds| <= |after.refunds|
    && (forall k :: 0 <= k < |db.refunds| ==> after.refunds[k].reference == db.refunds[k].reference)
    && (forall e :: e in after.entries && FromRefund(e) ==> e in db.entries)
    && (forall s :: 0 <= s < |after.requests| && after.requests[s].refundRef.Some? ==>
          s < |db.requests| && db.requests[s].refundRef == after.requests[s].refundRef)
  }

  lemma OrderOpUndisturbed(db: Db, op: Op)
    requires op.OpCapture? || op.OpMarkPaid? || op.OpProcessing? || op.OpShipped? || op.OpDelivered?
             || op.OpOpenDispute? || op.OpResolveDispute?
    ensures Undisturbed(db, Perform(db, op).db)
  {
    hide BalanceAudit, Settle, RequestPayout, MarkPayoutPaid, CompleteReturnRefund, Cancel;
    hide RequestReturn, AdvanceReturn, ApproveRefund, CreateRefund, CompletePaymentRefund;
  }

  lemma OtherOpUndisturbed(db: Db, op: Op)
    requires op.OpSettle? || op.OpRequestPayout? || op.OpPayoutPaid? || op.OpRequestReturn? || op.OpAdvanceReturn?
             || op.OpCreateRefund? || op.OpPaymentRefund?
    ensures Undisturbed(db, Perform(db, op).db)
  {
    hide BalanceAudit, Balance, FindRefund, RefundedTotal, HasEntry, ApproveRefund, CompleteReturnRefund;
    hide CapturePayment, MarkPaid, MarkProcessing, MarkShipped, MarkDelivered, Cancel, OpenDispute, ResolveDispute;
  }

  lemma UndisturbedCall(db: Db, after: Db, c: Call)
    requires Undisturbed(db, after) && FreshCall(db, c)
    ensures FreshCall(after, c) && RefOf(after, c) == RefOf(db, c)
  {
    if !c.Cancelling? { StillKnown(db.refunds, after.refunds, RefOf(db, c).value); }
    hide Known;
  }

  lemma UndisturbedCalls(d: Desk, after: Db)
    requires CallsInv(d) && Undisturbed(d.db, after)
    ensures CallsInv(Desk(after, d.attempts))
  {
    forall a | a in d.attempts && a.open
      ensures FreshCall(after, a.call) && RefOf(after, a.call) == RefOf(d.db, a.call)
    {
      UndisturbedCall(d.db, after, a.call);
    }
    hide FreshCall, Undisturbed, RefOf;
  }

  /** One call ends: the others are as they were. */
  lemma FinishKeepsCalls(d: Desk, a: nat)
    requires CallsInv(d) && a < |d.attempts|
    ensures CallsInv(Finish(d, a, d.db))
  {
    hide FreshCall, RefOf;
  }

  /** One more call starts. */
  lemma StartKeepsCalls(d: Desk, c: Call)
    requires CallsInv(d) && FreshCall(d.db, c)
    requires !c.Cancelling? ==> forall a :: a in d.attempts && a.open ==> RefOf(d.db, a.call) != RefOf(d.db, c)
    ensures CallsInv(Launch(d, d.db, c))
  {
    hide FreshCall;
    var after := Launch(d, d.db, c);
    assert forall a :: a in after.attempts ==> a in d.attempts || a == Attempt(c, true);
    forall a, b | 0 <= a < b < |after.attempts| && after.attempts[a].open && after.attempts[b].open
                  && !after.attempts[a].call.Cancelling?
      ensures RefOf(d.db, after.attempts[a].call) != RefOf(d.db, after.attempts[b].call)
    {
      if b == |d.attempts| {
        assert after.attempts[a] == d.attempts[a] && d.attempts[a] in d.attempts;
        assert FreshCall(d.db, d.attempts[a].call);
        RefIsSome(d.db, d.attempts[a].call);
      }
    }
  }

  lemma LaunchKeepsCalls(d: Desk, after: Db, c: Call)
    requires CallsInv(d) && Undisturbed(d.db, after) && FreshCall(after, c)
    requires forall a :: a in d.attempts && a.open ==> RefOf(d.db, a.call) != RefOf(after, c)
    ensures CallsInv(Launch(d, after, c))
  {
    UndisturbedCalls(d, after);
    forall a | a in d.attempts && a.open ensures RefOf(after, a.call) != RefOf(after, c) {
      UndisturbedCall(d.db, after, a.call);
    }
    hide FreshCall, CallsInv, RefOf, Undisturbed;
    StartKeepsCalls(Desk(after, d.attempts), c);
  }

  lemma RefIsSome(db: Db, c: Call)
    requires FreshCall(db, c)
    ensures RefOf(db, c).Some? <==> !c.Cancelling?
  {
  }

  /** What a call does to its own return and refund is nothing to the others. */
  lemma OthersStay(d: Desk, a: nat, after: Db)
    requires CallsInv(d) && InFlight(d, a) && !d.attempts[a].call.Cancelling?
    requires after.refunds == d.db.refunds && |after.requests| == |d.db.requests|
    requires forall e :: e in after.entries && FromRefund(e) ==>
               e in d.db.entries || Some(e.source) == RefOf(d.db, d.attempts[a].call)
    requires forall s :: 0 <= s < |after.requests| ==>
               after.requests[s].refundRef == d.db.requests[s].refundRef
               || after.requests[s].refundRef == RefOf(d.db, d.attempts[a].call)
    ensures CallsInv(Finish(d, a, after))
  {
    hide Known;
    forall b | 0 <= b < |d.attempts| && b != a && d.attempts[b].open ensures FreshCall(after, d.attempts[b].call) {
      assert d.attempts[b] in d.attempts && FreshCall(d.db, d.attempts[b].call);
      OtherRef(d, a, b);
    }
    assert forall x :: 0 <= x < |d.attempts| ==> RefOf(after, d.attempts[x].call) == RefOf(d.db, d.attempts[x].call);
    hide FreshCall, RefOf;
  }

  lemma OtherRef(d: Desk, a: nat, b: nat)
    requires CallsInv(d) && InFlight(d, a) && InFlight(d, b) && a != b && !d.attempts[a].call.Cancelling?
    ensures RefOf(d.db, d.attempts[b].call) != RefOf(d.db, d.attempts[a].call)
  {
    assert d.attempts[a] in d.attempts && FreshCall(d.db, d.attempts[a].call);
  }

  // ---------------------------------------------------------------- event by event

  /** The refund that a waiting return names is nobody else's, and has left no trace. */
  lemma WaitingIsFresh(db: Db, seller: int, r: nat, k: nat, held: bool)
    requires ReturnsInv(db) && Waiting(db, seller, r, k)
    ensures FreshCall(db, Completing(r, k, held)) && RefOf(db, Completing(r, k, held)) == db.requests[r].refundRef
  {
    hide SourcesInv, Known, Untouched;
    assert RequestInv(db.requests[r], |db.orders|, db.refunds, db.entries);
  }

  /** A call on another return, or another kind of call, is about another refund. */
  lemma OtherReturn(db: Db, c: Call, r: nat)
    requires FreshCall(db, c) && r < |db.requests| && db.requests[r].refundRef.Some? && (c.Completing? ==> c.r != r)
    ensures RefOf(db, c) != db.requests[r].refundRef
  {
    hide Known, Untouched;
  }

  lemma KnownToCalls(db: Db, c: Call, reference: string)
    requires FreshCall(db, c) && !Known(db.refunds, reference)
    ensures RefOf(db, c) != Some(reference)
  {
    hide Known, Untouched;
  }

  lemma LaunchCompletion(d: Desk, seller: int, r: nat, k: nat, held: bool, providerId: string, allowed: bool)
    requires Inv(d.db) && CallsInv(d) && Waiting(d.db, seller, r, k)
    requires forall a :: a in d.attempts && a.open && a.call.Completing? ==> a.call.r != r
    ensures var after := CompletePaymentRefund(d.db, k, providerId, allowed).db;
            Inv(after) && CallsInv(Launch(d, after, Completing(r, k, held)))
  {
    var after, c := CompletePaymentRefund(d.db, k, providerId, allowed).db, Completing(r, k, held);
    CompletionIsUndisturbed(d.db, k, providerId, allowed);
    hide LedgerInv, ReturnsInv, CompletePaymentRefund, FreshCall, RefOf, Undisturbed;
    PaymentRefundKeepsInv(d.db, k, providerId, allowed);
    WaitingIsFresh(d.db, seller, r, k, held);
    UndisturbedCall(d.db, after, c);
    forall a | a in d.attempts && a.open ensures RefOf(d.db, a.call) != RefOf(after, c) {
      OtherReturn(d.db, a.call, r);
    }
    hide CallsInv, Waiting;
    LaunchKeepsCalls(d, after, c);
  }

  lemma CompletionIsUndisturbed(db: Db, k: nat, providerId: string, allowed: bool)
    requires k < |db.refunds|
    ensures Undisturbed(db, CompletePaymentRefund(db, k, providerId, allowed).db)
  {
    hide RefundedTotal;
  }

  lemma CompleteKeepsAlone(d: Desk, e: Event)
    requires Inv(d.db) && CallsInv(d) && e.EvComplete? && Alone(d, e)
    ensures Inv(Step(d, e).db) && CallsInv(Step(d, e))
  {
    hide Inv, CallsInv, CompletePaymentRefund, FindRefund, Locked;
    if Step(d, e) != d {
      var k := FindRefund(d.db.refunds, d.db.requests[e.r].refundRef.value);
      LaunchCompletion(d, e.seller, e.r, k, d.db.refunds[k].providerId.Some?, e.providerId, e.allowed);
    }
  }

  /** A reference that no refund has. */
  lemma UnknownIsFresh(db: Db, after: Db, r: nat, reference: string)
    requires ReturnsInv(db) && !Known(db.refunds, reference)
    requires after == db.(refunds := after.refunds) && |db.refunds| < |after.refunds|
    requires after.refunds[|db.refunds|].reference == reference
    ensures FreshCall(after, Approving(r, reference))
  {
    KnownMeans(after.refunds, reference);
    forall s | 0 <= s < |db.requests| ensures db.requests[s].refundRef != Some(reference) {
      assert RequestInv(db.requests[s], |db.orders|, db.refunds, db.entries);
    }
    hide Known;
  }

  lemma LaunchApproval(d: Desk, i: nat, r: nat, reference: string, amount: int, allowed: bool)
    requires Inv(d.db) && CallsInv(d) && CreateRefund(d.db, i, reference, amount, allowed).error.None?
    ensures var after := CreateRefund(d.db, i, reference, amount, allowed).db;
            Inv(after) && CallsInv(Launch(d, after, Approving(r, reference)))
  {
    var after := CreateRefund(d.db, i, reference, amount, allowed).db;
    assert !Known(d.db.refunds, reference) && |d.db.refunds| < |after.refunds|
           && after.refunds[|d.db.refunds|].reference == reference;
    CreateIsUndisturbed(d.db, i, reference, amount, allowed);
    hide LedgerInv, ReturnsInv, CreateRefund, FreshCall, Known, Undisturbed;
    CreateKeepsInv(d.db, i, reference, amount, allowed);
    UnknownIsFresh(d.db, after, r, reference);
    forall a | a in d.attempts && a.open ensures RefOf(d.db, a.call) != Some(reference) {
      KnownToCalls(d.db, a.call, reference);
    }
    hide CallsInv;
    LaunchKeepsCalls(d, after, Approving(r, reference));
  }

  lemma CreateIsUndisturbed(db: Db, i: nat, reference: string, amount: int, allowed: bool)
    ensures Undisturbed(db, CreateRefund(db, i, reference, amount, allowed).db)
  {
    hide FindRefund, RefundedTotal;
  }

  lemma ApproveKeepsAlone(d: Desk, e: Event)
    requires Inv(d.db) && CallsInv(d) && e.EvApprove?
    ensures Inv(Step(d, e).db) && CallsInv(Step(d, e))
  {
    hide Inv, CallsInv, CreateRefund, Locked;
    if Step(d, e) != d { LaunchApproval(d, d.db.requests[e.r].order, e.r, e.reference, e.amount, e.allowed); }
  }

  lemma GrantKeepsReturns(db: Db, r: nat, reference: string)
    requires ReturnsInv(db) && r < |db.requests| && FreshCall(db, Approving(r, reference))
    ensures ReturnsInv(Grant(db, r, reference))
  {
    hide Known, Untouched, SourcesInv;
    var after := Grant(db, r, reference);
    assert RequestInv(db.requests[r], |db.orders|, db.refunds, db.entries);
    forall s | 0 <= s < |after.requests| ensures RequestInv(after.requests[s], |db.orders|, db.refunds, db.entries) {
      assert RequestInv(db.requests[s], |db.orders|, db.refunds, db.entries);
    }
  }

  lemma GrantKeepsAlone(d: Desk, e: Event)
    requires Inv(d.db) && CallsInv(d) && e.EvGrant?
    ensures Inv(Step(d, e).db) && CallsInv(Step(d, e))
  {
    var after := Step(d, e);
    if after != d {
      var c := d.attempts[e.a].call;
      assert d.attempts[e.a] in d.attempts && FreshCall(d.db, c);
      hide LedgerInv, ReturnsInv, CallsInv;
      GrantKeepsReturns(d.db, c.r, c.reference);
      RequestsAreApart(d.db, after.db);
      OthersStay(d, e.a, after.db);
    }
  }

  lemma BookedReturns(db: Db, after: Db, r: nat, k: nat, held: bool)
    requires ReturnsInv(db) && r < |db.requests| && k < |db.refunds| && FreshCall(db, Completing(r, k, held))
    requires after.refunds == db.refunds && |after.orders| == |db.orders|
    requires after.requests == db.requests[r := db.requests[r].(status := RefundedReturn)]
    requires after.entries == db.entries
             || (|after.entries| == |db.entries| + 1 && after.entries == db.entries + [after.entries[|db.entries|]]
                 && FromRefund(after.entries[|db.entries|])
                 && after.entries[|db.entries|].source == db.refunds[k].reference)
    ensures ReturnsInv(after)
  {
    hide Known;
    assert RequestInv(db.requests[r], |db.orders|, db.refunds, db.entries);
    forall s | 0 <= s < |after.requests|
      ensures RequestInv(after.requests[s], |db.orders|, after.refunds, after.entries)
    {
      assert RequestInv(db.requests[s], |db.orders|, db.refunds, db.entries);
    }
  }

  lemma BookIsSound(db: Db, r: nat, k: nat, held: bool)
    requires Inv(db) && r < |db.requests| && k < |db.refunds| && db.refunds[k].amount > 0
    requires FreshCall(db, Completing(r, k, held))
    requires db.requests[r].order < |db.orders| && db.requests[r].order < |db.payouts|
    requires db.requests[r].order < |db.payments|
    ensures var i, reference, after := db.requests[r].order, db.refunds[k].reference, Book(db, r, k).db;
            && Inv(after) && !Loses(db.payouts[i], db.entries, i, reference)
            && after.refunds == db.refunds && |after.requests| == |db.requests|
            && (forall e :: e in after.entries && FromRefund(e) ==> e in db.entries || e.source == reference)
            && forall s :: 0 <= s < |after.requests| ==> after.requests[s].refundRef == db.requests[s].refundRef
  {
    var i, reference, after := db.requests[r].order, db.refunds[k].reference, Book(db, r, k).db;
    assert !HasEntry(db.entries, i, RefundReversal, reference);
    ApplyEntries(db, db.refunds[k].amount, i, reference);
    hide LedgerInv, ReturnsInv, FreshCall, ApplyRefund, RefundAudit, PayoutConstraint, HasEntry;
    BookKeepsLedger(db, r, k);
    if after != db { BookedReturns(db, after, r, k, held); }
  }

  lemma BookKeepsAlone(d: Desk, e: Event)
    requires ShapeInv(d) && Inv(d.db) && CallsInv(d) && e.EvBook?
    ensures Inv(Step(d, e).db) && CallsInv(Step(d, e)) && !LateBooking(d, e)
  {
    if MayBook(d, e.a) {
      var c := d.attempts[e.a].call;
      assert d.attempts[e.a] in d.attempts && FreshCall(d.db, c);
      assert d.db.refunds[c.k] in d.db.refunds && d.db.requests[c.r] in d.db.requests;
      hide Inv, CallsInv, ShapeInv, FreshCall, Book, Loses;
      BookIsSound(d.db, c.r, c.k, c.held);
      OthersStay(d, e.a, Book(d.db, c.r, c.k).db);
    }
  }

  lemma CancelKeepsAlone(d: Desk, e: Event)
    requires Inv(d.db) && CallsInv(d) && (e.EvCancel? || e.EvCancelled? || e.EvAbandon?) && Alone(d, e)
    ensures Inv(Step(d, e).db) && CallsInv(Step(d, e)) && !LateCancel(d, e)
  {
    if e.EvCancelled? {
      if MayCancel(d, e.a) {
        var i := d.attempts[e.a].call.i;
        RowOf(d.db, i);
        hide LedgerInv;
        CancelKeepsLedger(d.db, i);
        var after := CancelledRows(d.db, i);
        hide RequestsInv, SourcesInv;
        UndisturbedCalls(d, after);
        FinishKeepsCalls(Desk(after, d.attempts), e.a);
      }
    } else if e.EvAbandon? {
      hide Inv;
      if e.a < |d.attempts| { FinishKeepsCalls(d, e.a); }
    } else {
      hide Inv;
      if Step(d, e) != d { StartKeepsCalls(d, Cancelling(e.i)); }
    }
  }

  lemma OpKeepsAlone(d: Desk, e: Event)
    requires Inv(d.db) && CallsInv(d) && e.EvOp?
    ensures Inv(Step(d, e).db) && CallsInv(Step(d, e))
  {
    hide LedgerInv, ReturnsInv, Perform, Undisturbed;
    if Admitted(d, e.op) {
      var op := e.op;
      TransactionKeepsInv(d.db, op);
      if op.OpCapture? || op.OpMarkPaid? || op.OpProcessing? || op.OpShipped? || op.OpDelivered? || op.OpOpenDispute?
         || op.OpResolveDispute? {
        OrderOpUndisturbed(d.db, op);
      } else {
        OtherOpUndisturbed(d.db, op);
      }
      UndisturbedCalls(d, Perform(d.db, op).db);
    }
  }

  lemma StepKeepsAlone(d: Desk, e: Event)
    requires ShapeInv(d) && Inv(d.db) && CallsInv(d) && Alone(d, e)
    ensures Inv(Step(d, e).db) && CallsInv(Step(d, e)) && !Late(d, e)
  {
    hide Inv, ShapeInv, CallsInv, Alone, Step, LateBooking, LateCancel;
    match e
    case EvOp(_) => OpKeepsAlone(d, e); NeverLate(d, e);
    case EvComplete(_, _, _, _) => CompleteKeepsAlone(d, e); NeverLate(d, e);
    case EvBook(_) => BookKeepsAlone(d, e); NeverLate(d, e);
    case EvApprove(_, _, _, _, _) => ApproveKeepsAlone(d, e); NeverLate(d, e);
    case EvGrant(_) => GrantKeepsAlone(d, e); NeverLate(d, e);
    case EvCancel(_) => CancelKeepsAlone(d, e); NeverLate(d, e);
    case EvCancelled(_) => CancelKeepsAlone(d, e); NeverLate(d, e);
    case EvAbandon(_) => CancelKeepsAlone(d, e); NeverLate(d, e);
  }

  lemma NeverLate(d: Desk, e: Event)
    ensures LateBooking(d, e) ==> e.EvBook?
    ensures LateCancel(d, e) ==> e.EvCancelled?
  {
  }

  /** If completions of a return never overlap and cancellations find their order unpaid, every interleaving keeps
      the invariant of the ledger and its returns, and with it the balances. */
  lemma {:induction false} OneAtATimeKeepsInv(start: Db, events: seq<Event>)
    requires Start(start) && AloneRun(start, events)
    ensures NoneLate(start, events) && Inv(RunAll(Desk(start, []), events).db)
    ensures ShapeInv(RunAll(Desk(start, []), events)) && CallsInv(RunAll(Desk(start, []), events))
  {
    if events == [] {
      StartIsInv(start);
    } else {
      var before, e := RunAll(Desk(start, []), events[..|events| - 1]), events[|events| - 1];
      OneAtATimeKeepsInv(start, events[..|events| - 1]);
      hide Step, Late, Inv, ShapeInv, CallsInv, Alone;
      StepKeepsShape(before, e);
      StepKeepsAlone(before, e);
    }
  }
}
