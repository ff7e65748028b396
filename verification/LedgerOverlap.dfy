/** The seller ledger under calls that commit halfway: completing and approving a refund, and cancelling an
    order. Between both commits nothing is locked, and every other call may come in between. */
module LedgerOverlap {
  import opened Outcomes
  import opened SellerBalance
  import opened SellerInvariant
  import opened SellerLedger

  /** A call between its two commits. A completion that found its payment refund completed has not
      committed yet: it still holds the lock on the return. */
  datatype Call =
    | Completing(r: nat, k: nat, held: bool)
    | Approving(r: nat, reference: string)
    | Cancelling(i: nat)

  datatype Attempt = Attempt(call: Call, open: bool)

  datatype Desk = Desk(db: Db, attempts: seq<Attempt>)

  // ---------------------------------------------------------------- the steps

  predicate InFlight(d: Desk, a: nat) { a < |d.attempts| && d.attempts[a].open }

  /** A completion that has not committed holds the return. */
  predicate Locked(d: Desk, r: nat) {
    exists a :: 0 <= a < |d.attempts| && Holds(d.attempts[a], r)
  }

  predicate Holds(a: Attempt, r: nat) { a.open && a.call.Completing? && a.call.held && a.call.r == r }

  function Launch(d: Desk, db: Db, call: Call): Desk { Desk(db, d.attempts + [Attempt(call, true)]) }

  function Finish(d: Desk, a: nat, db: Db): Desk
    requires a < |d.attempts|
  {
    Desk(db, d.attempts[a := d.attempts[a].(open := false)])
  }

  /** The first half of `complete_return_refund`, up to the commit of the payment refund if there is one. */
  function BeginCompletion(d: Desk, seller: int, r: nat, providerId: string, allowed: bool): Desk {
    if Locked(d, r) || r >= |d.db.requests| || d.db.requests[r].refundRef.None? then d
    else
      var k := FindRefund(d.db.refunds, d.db.requests[r].refundRef.value);
      if !Waiting(d.db, seller, r, k) then d
      else
        var first := CompletePaymentRefund(d.db, k, providerId, allowed);
        if first.error.Some? then d else Launch(d, first.db, Completing(r, k, d.db.refunds[k].providerId.Some?))
  }

  predicate MayBook(d: Desk, a: nat) {
    && InFlight(d, a) && d.attempts[a].call.Completing?
    && var c := d.attempts[a].call;
       && c.r < |d.db.requests| && c.k < |d.db.refunds| && d.db.requests[c.r].order < |d.db.payouts|
       && d.db.requests[c.r].order < |d.db.orders| && d.db.requests[c.r].order < |d.db.payments|
       && forall b :: 0 <= b < |d.attempts| && b != a ==> !Holds(d.attempts[b], c.r)
  }

  /** The second half of a completion: it is applied whatever became of the return, or refused. */
  function BookAttempt(d: Desk, a: nat): Desk {
    if !MayBook(d, a) then d else Finish(d, a, Book(d.db, d.attempts[a].call.r, d.attempts[a].call.k).db)
  }

  function BeginApprovalOf(d: Desk, seller: int, r: nat, reference: string, amount: int, allowed: bool): Desk {
    if Locked(d, r) then d
    else
      var first := BeginApproval(d.db, seller, r, reference, amount, allowed);
      if first.error.Some? then d else Launch(d, first.db, Approving(r, reference))
  }

  function GrantAttempt(d: Desk, a: nat): Desk {
    if InFlight(d, a) && d.attempts[a].call.Approving? && d.attempts[a].call.r < |d.db.requests|
       && !Locked(d, d.attempts[a].call.r)
    then Finish(d, a, Grant(d.db, d.attempts[a].call.r, d.attempts[a].call.reference))
    else d
  }

  /** The first half of `cancel`, up to the commit of the commerce order's cancellation. */
  function BeginCancel(d: Desk, i: nat): Desk {
    if i < |d.db.orders| && i < |d.db.payouts| && d.db.orders[i].status == PendingPayment then
      Launch(d, d.db, Cancelling(i))
    else d
  }

  predicate MayCancel(d: Desk, a: nat) {
    && InFlight(d, a) && d.attempts[a].call.Cancelling?
    && d.attempts[a].call.i < |d.db.orders| && d.attempts[a].call.i < |d.db.payouts|
  }

  /** The second half: order and payout, whatever became of them. */
  function CancelledRows(db: Db, i: nat): Db
    requires i < |db.orders| && i < |db.payouts|
  {
    SetStatus(db, i, Cancelled).(payouts := db.payouts[i := db.payouts[i].(status := Reversed)])
  }

  function CancelAttempt(d: Desk, a: nat): Desk {
    if !MayCancel(d, a) then d else Finish(d, a, CancelledRows(d.db, d.attempts[a].call.i))
  }

  datatype Event =
    | EvOp(op: Op)
    | EvComplete(seller: int, r: nat, providerId: string, allowed: bool)
    | EvBook(a: nat)
    | EvApprove(seller: int, r: nat, reference: string, amount: int, allowed: bool)
    | EvGrant(a: nat)
    | EvCancel(i: nat)
    | EvCancelled(a: nat)
    | EvAbandon(a: nat)

  /** The calls that commit once; a return that is held has to be waited for. */
  predicate Admitted(d: Desk, op: Op) {
    OneTransaction(op) && !op.OpCancel? && (op.OpAdvanceReturn? ==> !Locked(d, op.r))
  }

  function Step(d: Desk, e: Event): Desk {
    match e
    case EvOp(op) => if Admitted(d, op) then d.(db := Perform(d.db, op).db) else d
    case EvComplete(seller, r, providerId, allowed) => BeginCompletion(d, seller, r, providerId, allowed)
    case EvBook(a) => BookAttempt(d, a)
    case EvApprove(seller, r, reference, amount, allowed) => BeginApprovalOf(d, seller, r, reference, amount, allowed)
    case EvGrant(a) => GrantAttempt(d, a)
    case EvCancel(i) => BeginCancel(d, i)
    case EvCancelled(a) => CancelAttempt(d, a)
    case EvAbandon(a) => if a < |d.attempts| then Finish(d, a, d.db) else d
  }

  function RunAll(d: Desk, events: seq<Event>): Desk {
    if events == [] then d else Step(RunAll(d, events[..|events| - 1]), events[|events| - 1])
  }

  // ---------------------------------------------------------------- what every event keeps

  predicate CallInv(db: Db, c: Call) {
    match c
    case Completing(r, k, _) => r < |db.requests| && k < |db.refunds|
    case Approving(r, _) => r < |db.requests|
    case Cancelling(i) => i < |db.orders|
  }

  ghost predicate ShapeInv(d: Desk) {
    && |d.db.orders| == |d.db.payouts| == |d.db.payments| == |d.db.disputes|
    && (forall x :: x in d.db.requests ==> x.order < |d.db.orders|)
    && (forall f :: f in d.db.refunds ==> f.amount > 0)
    && forall a :: a in d.attempts ==> CallInv(d.db, a.call)
  }

  /** Rows are added, and keep what identifies them. */
  ghost predicate Grows(db: Db, after: Db) {
    && |after.orders| == |after.payouts| == |after.payments| == |after.disputes| == |db.orders|
    && |db.requests| <= |after.requests|
    && (forall r :: 0 <= r < |db.requests| ==> after.requests[r].order == db.requests[r].order)
    && (forall r :: |db.requests| <= r < |after.requests| ==> after.requests[r].order < |db.orders|)
    && |db.refunds| <= |after.refunds|
    && (forall k :: 0 <= k < |db.refunds| ==> after.refunds[k].amount == db.refunds[k].amount)
    && (forall k :: |db.refunds| <= k < |after.refunds| ==> after.refunds[k].amount > 0)
  }

  lemma OrderOpGrows(db: Db, op: Op)
    requires |db.orders| == |db.payouts| == |db.payments| == |db.disputes|
    requires op.OpCapture? || op.OpMarkPaid? || op.OpProcessing? || op.OpShipped? || op.OpDelivered?
             || op.OpOpenDispute? || op.OpResolveDispute?
    ensures Grows(db, Perform(db, op).db)
  {
    hide BalanceAudit, Settle, RequestPayout, MarkPayoutPaid, CompleteReturnRefund, Cancel;
    hide RequestReturn, AdvanceReturn, ApproveRefund, CreateRefund, CompletePaymentRefund;
  }

  lemma OtherOpGrows(db: Db, op: Op)
    requires |db.orders| == |db.payouts| == |db.payments| == |db.disputes|
    requires op.OpSettle? || op.OpRequestPayout? || op.OpPayoutPaid? || op.OpRequestReturn? || op.OpAdvanceReturn?
             || op.OpCreateRefund? || op.OpPaymentRefund?
    ensures Grows(db, Perform(db, op).db)
  {
    hide BalanceAudit, AddEntry, Balance, FindRefund, RefundedTotal, ApproveRefund, CompleteReturnRefund;
    hide CapturePayment, MarkPaid, MarkProcessing, MarkShipped, MarkDelivered, Cancel, OpenDispute, ResolveDispute;
  }

  lemma GrowsKeepsShape(d: Desk, after: Db, attempts: seq<Attempt>)
    requires ShapeInv(d) && Grows(d.db, after)
    requires forall a :: a in attempts ==> CallInv(after, a.call) || CallInv(d.db, a.call)
    ensures ShapeInv(Desk(after, attempts))
  {
    forall x | x in after.requests ensures x.order < |after.orders| {
      var r :| 0 <= r < |after.requests| && after.requests[r] == x;
      if r < |d.db.requests| { assert d.db.requests[r] in d.db.requests; }
    }
    forall f | f in after.refunds ensures f.amount > 0 {
      var k :| 0 <= k < |after.refunds| && after.refunds[k] == f;
      if k < |d.db.refunds| { assert d.db.refunds[k] in d.db.refunds; }
    }
  }

  /** No event forgets a row or an attempt. */
  lemma StepKeepsShape(d: Desk, e: Event)
    requires ShapeInv(d)
    ensures ShapeInv(Step(d, e))
  {
    StepGrows(d, e);
    hide Grows;
    GrowsKeepsShape(d, Step(d, e).db, Step(d, e).attempts);
  }

  lemma StepGrows(d: Desk, e: Event)
    requires ShapeInv(d)
    ensures Grows(d.db, Step(d, e).db)
    ensures forall a :: a in Step(d, e).attempts ==> CallInv(Step(d, e).db, a.call) || CallInv(d.db, a.call)
  {
    hide Perform, Book, CompletePaymentRefund, FindRefund, Locked, RefundedTotal;
    if e.EvOp? {
      if Admitted(d, e.op) {
        if e.op.OpCapture? || e.op.OpMarkPaid? || e.op.OpProcessing? || e.op.OpShipped? || e.op.OpDelivered?
           || e.op.OpOpenDispute?
           || e.op.OpResolveDispute? {
          OrderOpGrows(d.db, e.op);
        } else {
          OtherOpGrows(d.db, e.op);
        }
      }
    } else if e.EvBook? {
      if MayBook(d, e.a) { BookGrows(d.db, d.attempts[e.a].call.r, d.attempts[e.a].call.k); }
    } else if e.EvComplete? {
      CompletionGrows(d, e.seller, e.r, e.providerId, e.allowed);
    }
  }

  lemma BookGrows(db: Db, r: nat, k: nat)
    requires |db.orders| == |db.payouts| == |db.payments| == |db.disputes|
    requires r < |db.requests| && k < |db.refunds| && db.requests[r].order < |db.orders|
    ensures Grows(db, Book(db, r, k).db)
  {
    hide ApplyRefund, RefundAudit, PayoutConstraint;
  }

  lemma CompletionGrows(d: Desk, seller: int, r: nat, providerId: string, allowed: bool)
    requires ShapeInv(d)
    ensures Grows(d.db, BeginCompletion(d, seller, r, providerId, allowed).db)
    ensures forall a :: a in BeginCompletion(d, seller, r, providerId, allowed).attempts ==> CallInv(d.db, a.call)
  {
    var k := if r < |d.db.requests| && d.db.requests[r].refundRef.Some?
        then FindRefund(d.db.refunds, d.db.requests[r].refundRef.value) else 0;
    if k < |d.db.refunds| { OtherOpGrows(d.db, OpPaymentRefund(k, providerId, allowed)); }
    hide Locked, FindRefund, CompletePaymentRefund;
  }

  // ---------------------------------------------------------------- the events that come too late

  /** A completion is booked although the ledger holds the reversal of its refund, and takes net again. */
  predicate LateBooking(d: Desk, e: Event) {
    && e.EvBook? && MayBook(d, e.a)
    && var c := d.attempts[e.a].call;
       var i := d.db.requests[c.r].order;
       Book(d.db, c.r, c.k).error.None? && Loses(d.db.payouts[i], d.db.entries, i, d.db.refunds[c.k].reference)
  }

  /** A cancellation overwrites a payout that has been paid since. */
  predicate LateCancel(d: Desk, e: Event) {
    e.EvCancelled? && MayCancel(d, e.a) && d.db.payouts[d.attempts[e.a].call.i].status == PaidOut
  }

  predicate Late(d: Desk, e: Event) { LateBooking(d, e) || LateCancel(d, e) }

  lemma BookKeepsLedger(db: Db, r: nat, k: nat)
    requires LedgerInv(db) && r < |db.requests| && k < |db.refunds| && db.refunds[k].amount > 0
    requires db.requests[r].order < |db.orders|
    requires db.requests[r].order < |db.payouts| && db.requests[r].order < |db.payments|
    requires Book(db, r, k).error.None? ==>
               !Loses(db.payouts[db.requests[r].order], db.entries, db.requests[r].order, db.refunds[k].reference)
    ensures LedgerInv(Book(db, r, k).db)
  {
    hide LedgerInv, ApplyRefund, RefundAudit, PayoutConstraint, Loses;
    if Book(db, r, k).error.None? {
      var applied := ApplyRefund(db, db.requests[r].order, db.refunds[k].amount, db.refunds[k].reference);
      ApplyKeepsLedger(db, db.refunds[k].amount, db.requests[r].order, db.refunds[k].reference);
      RequestsAreApart(applied, Book(db, r, k).db);
    }
  }

  /** Returns and refunds are no part of the ledger. */
  lemma RequestsAreApart(db: Db, after: Db)
    requires LedgerInv(db) && after == db.(requests := after.requests, refunds := after.refunds)
    ensures LedgerInv(after)
  {
    hide RowsInv, ExternalInv, EntriesInv;
  }

  lemma CancelKeepsLedger(db: Db, i: nat)
    requires LedgerInv(db) && i < |db.orders| && i < |db.payouts| && db.payouts[i].status != PaidOut
    ensures LedgerInv(CancelledRows(db, i))
  {
    assert RowInv(db.orders[i], db.payouts[i], db.entries, i);
    hide RowsInv, EntriesInv;
    Positive(db.payouts, db.entries) by { assert LedgerInv(db); }
    TotalsFromCounts(db.entries, i, Credit);
    TotalsFromCounts(db.entries, i, RefundReversal);
    KeepsOnRow(db, i, db.orders[i].(status := Cancelled), db.payouts[i].(status := Reversed));
  }

  /** An event that does not come too late keeps the ledger. */
  lemma TimelyKeepsLedger(d: Desk, e: Event)
    requires ShapeInv(d) && LedgerInv(d.db) && !Late(d, e)
    ensures LedgerInv(Step(d, e).db)
  {
    hide LedgerInv, Perform, Book, CompletePaymentRefund, FindRefund, Locked, CreateRefund, Loses, CancelledRows;
    if e.EvOp? {
      if Admitted(d, e.op) { TransactionKeepsInv(d.db, e.op); }
    } else if e.EvBook? {
      if MayBook(d, e.a) {
        var c := d.attempts[e.a].call;
        assert d.db.refunds[c.k] in d.db.refunds && d.db.requests[c.r] in d.db.requests;
        BookKeepsLedger(d.db, c.r, c.k);
      }
    } else if e.EvCancelled? {
      if MayCancel(d, e.a) { CancelKeepsLedger(d.db, d.attempts[e.a].call.i); }
    } else if e.EvComplete? {
      CompletionKeepsLedger(d, e.seller, e.r, e.providerId, e.allowed);
    } else {
      ApprovalKeepsLedger(d, e);
    }
  }

  lemma CompletionKeepsLedger(d: Desk, seller: int, r: nat, providerId: string, allowed: bool)
    requires LedgerInv(d.db)
    ensures LedgerInv(BeginCompletion(d, seller, r, providerId, allowed).db)
  {
    hide LedgerInv, CompletePaymentRefund, FindRefund, Locked;
    var after := BeginCompletion(d, seller, r, providerId, allowed);
    if after != d {
      PaymentRefundKeepsInv(d.db, FindRefund(d.db.refunds, d.db.requests[r].refundRef.value), providerId, allowed);
    }
  }

  lemma ApprovalKeepsLedger(d: Desk, e: Event)
    requires LedgerInv(d.db) && (e.EvApprove? || e.EvGrant? || e.EvCancel? || e.EvAbandon?)
    ensures LedgerInv(Step(d, e).db)
  {
    hide LedgerInv, CreateRefund, Locked;
    RequestsAreApart(d.db, Step(d, e).db);
  }

  // ---------------------------------------------------------------- what a late event breaks

  lemma {:induction false} SumMoves(payouts: seq<Payout>, entries: seq<Entry>, account: Account, i: nat, p: Payout,
                                    n: nat)
    requires i < |payouts| && n <= |payouts| && p.account == payouts[i].account == account
    ensures ExposureSum(payouts[i := p], entries, account, n)
         == ExposureSum(payouts, entries, account, n)
            + if i < n then Exposure(p, entries, i) - Exposure(payouts[i], entries, i) else 0
  {
    hide Exposure;
    if n > 0 { SumMoves(payouts, entries, account, i, p, n - 1); }
  }

  /** If a payout's exposure moves and no entry is written, the balance of its account is wrong. */
  lemma Unbalanced(db: Db, after: Db, i: nat)
    requires LedgerInv(db) && i < |db.payouts| == |after.payouts| && after.entries == db.entries
    requires after.payouts == db.payouts[i := after.payouts[i]] && after.payouts[i].account == db.payouts[i].account
    requires Exposure(after.payouts[i], db.entries, i) != Exposure(db.payouts[i], db.entries, i)
    ensures !BalanceIsOwed(after, db.payouts[i].account)
  {
    hide LedgerInv, Exposure, Balance;
    LedgerIsOwed(db, db.payouts[i].account);
    SumMoves(db.payouts, db.entries, db.payouts[i].account, i, after.payouts[i], |db.payouts|);
    hide ExposureSum;
  }

  lemma LateBookingBreaks(d: Desk, e: Event)
    requires ShapeInv(d) && LedgerInv(d.db) && LateBooking(d, e)
    ensures exists account :: !BalanceIsOwed(Step(d, e).db, account)
  {
    var c := d.attempts[e.a].call;
    var i, f, after := d.db.requests[c.r].order, d.db.refunds[c.k], Step(d, e).db;
    assert f in d.db.refunds;
    RowOf(d.db, i);
    hide LedgerInv, ShapeInv, RefundAudit;
    LosingTwice(d.db.payouts[i], d.db.entries, i, f.amount);
    Unbalanced(d.db, after, i);
    assert !BalanceIsOwed(after, d.db.payouts[i].account);
  }

  lemma LosingTwice(p: Payout, entries: seq<Entry>, i: nat, amount: int)
    requires PayoutInv(p, entries, i) && p.status == Eligible && p.net > 0 && amount > 0
    requires PayoutConstraint(ReducePayout(p, amount))
    requires forall e :: e in entries ==> e.amount > 0
    ensures Exposure(ReducePayout(p, amount), entries, i) < Exposure(p, entries, i)
  {
    TotalsFromCounts(entries, i, Credit);
    TotalsFromCounts(entries, i, RefundReversal);
  }

  lemma LateCancelBreaks(d: Desk, e: Event)
    requires LedgerInv(d.db) && LateCancel(d, e)
    ensures exists account :: !BalanceIsOwed(Step(d, e).db, account)
  {
    var i, after := d.attempts[e.a].call.i, Step(d, e).db;
    RowOf(d.db, i);
    TotalsFromCounts(d.db.entries, i, PayoutDebit);
    hide LedgerInv;
    Unbalanced(d.db, after, i);
    assert !BalanceIsOwed(after, d.db.payouts[i].account);
  }

  // ---------------------------------------------------------------- every interleaving

  ghost predicate AllOwed(db: Db) { forall account :: BalanceIsOwed(db, account) }

  /** After every event of the run. */
  ghost predicate AlwaysOwed(start: Db, events: seq<Event>) {
    && AllOwed(RunAll(Desk(start, []), events).db)
    && (events != [] ==> AlwaysOwed(start, events[..|events| - 1]))
  }

  predicate NoneLate(start: Db, events: seq<Event>) {
    events != [] ==>
      NoneLate(start, events[..|events| - 1])
      && !Late(RunAll(Desk(start, []), events[..|events| - 1]), events[|events| - 1])
  }

  lemma StepIsOwedIff(d: Desk, e: Event)
    requires ShapeInv(d) && LedgerInv(d.db)
    ensures AllOwed(Step(d, e).db) <==> !Late(d, e)
    ensures AllOwed(Step(d, e).db) ==> LedgerInv(Step(d, e).db)
  {
    hide LedgerInv, ShapeInv, LateBooking, LateCancel, BalanceIsOwed;
    if LateBooking(d, e) {
      LateBookingBreaks(d, e);
    } else if LateCancel(d, e) {
      LateCancelBreaks(d, e);
    } else {
      TimelyKeepsLedger(d, e);
      forall account ensures BalanceIsOwed(Step(d, e).db, account) { LedgerIsOwed(Step(d, e).db, account); }
    }
  }

  /** Main result, over every interleaving of whole calls with both halves of completions, approvals and
      cancellations: the balance of every account is what is owed, at all times, if and only if no completion is
      booked a second time at the cost of a credited payout, and no cancellation overwrites a paid one. */
  lemma {:induction false} AlwaysOwedIff(start: Db, events: seq<Event>)
    requires Start(start)
    ensures AlwaysOwed(start, events) <==> NoneLate(start, events)
    ensures ShapeInv(RunAll(Desk(start, []), events))
    ensures AlwaysOwed(start, events) ==> LedgerInv(RunAll(Desk(start, []), events).db)
  {
    if events == [] {
      StartIsInv(start);
      hide LedgerInv, BalanceIsOwed, ReturnsInv;
      forall account ensures BalanceIsOwed(start, account) { LedgerIsOwed(start, account); }
    } else {
      var before, e := RunAll(Desk(start, []), events[..|events| - 1]), events[|events| - 1];
      AlwaysOwedIff(start, events[..|events| - 1]);
      hide Step, Late, LedgerInv, ShapeInv, AllOwed;
      StepKeepsShape(before, e);
      if AlwaysOwed(start, events[..|events| - 1]) { StepIsOwedIff(before, e); }
    }
  }

  // ---------------------------------------------------------------- two completions of one return

  predicate Quiet(d: Desk) { forall a :: a in d.attempts ==> !a.open }

  /** Without anything in between, both halves are the whole call. */
  lemma CompletionAlone(d: Desk, seller: int, r: nat, providerId: string, allowed: bool)
    requires Quiet(d)
    ensures Step(Step(d, EvComplete(seller, r, providerId, allowed)), EvBook(|d.attempts|)).db
         == CompleteReturnRefund(d.db, seller, r, providerId, allowed).db
  {
    hide Book, CompletePaymentRefund, FindRefund;
    assert !Locked(d, r);
  }

  lemma ApprovalAlone(d: Desk, seller: int, r: nat, reference: string, amount: int, allowed: bool)
    requires Quiet(d)
    ensures Step(Step(d, EvApprove(seller, r, reference, amount, allowed)), EvGrant(|d.attempts|)).db
         == ApproveRefund(d.db, seller, r, reference, amount, allowed).db
  {
    hide CreateRefund;
    assert !Locked(d, r);
    var mid := Step(d, EvApprove(seller, r, reference, amount, allowed));
    assert !Locked(mid, r);
  }

  lemma CancelAlone(d: Desk, i: nat)
    ensures Step(Step(d, EvCancel(i)), EvCancelled(|d.attempts|)).db == Cancel(d.db, i).db
  {
  }

  /** The refund at k is asked for, and its return and payout can take it twice. */
  ghost predicate TakesTwice(d: Desk, seller: int, r: nat, k: nat, providerId: string) {
    && Quiet(d) && LedgerInv(d.db) && Waiting(d.db, seller, r, k) && d.db.refunds[k].providerId.None?
    && CompletePaymentRefund(d.db, k, providerId, true).error.None?
    && var p, amount, i := d.db.payouts[d.db.requests[r].order], d.db.refunds[k].amount, d.db.requests[r].order;
       && p.status == Eligible && p.sellerFunded + p.fee > 0 && 0 < amount <= d.db.orders[i].total
       && 2 * amount <= p.net
       && !HasEntry(d.db.entries, i, RefundReversal, d.db.refunds[k].reference)
  }

  /** The reversal of a refund of the given amount. */
  function ReversalOf(db: Db, r: nat, k: nat): Entry
    requires r < |db.requests| && k < |db.refunds| && db.requests[r].order < |db.payouts|
  {
    EntryFor(db, db.requests[r].order, RefundReversal, db.refunds[k].amount, db.refunds[k].reference)
  }

  lemma BookOnce(db: Db, r: nat, k: nat)
    requires r < |db.requests| && k < |db.refunds| && db.requests[r].order < |db.orders|
    requires db.requests[r].order < |db.payouts| && db.requests[r].order < |db.payments|
    requires var i, amount := db.requests[r].order, db.refunds[k].amount;
             var p := db.payouts[i];
             && PayoutConstraint(p) && p.status == Eligible && p.eligibleAt && p.sellerFunded + p.fee > 0
             && 0 < amount <= p.net && amount <= db.orders[i].total
             && Total(db.entries, i, RefundRecovery) == 0
    ensures var i, amount, after := db.requests[r].order, db.refunds[k].amount, Book(db, r, k);
            && after.error.None? && |after.db.payouts| == |db.payouts| && |after.db.orders| == |db.orders|
            && after.db.payouts[i]
               == db.payouts[i].(gross := db.payouts[i].gross - amount, net := db.payouts[i].net - amount)
            && after.db.orders[i].total == db.orders[i].total
            && after.db.entries == AddEntry(db.entries, ReversalOf(db, r, k))
            && after.db.requests == db.requests[r := db.requests[r].(status := RefundedReturn)]
  {
    var i, amount := db.requests[r].order, db.refunds[k].amount;
    EntryAdded(db.entries, ReversalOf(db, r, k), i, RefundRecovery);
    hide HasEntry;
  }

  /** Both callers are past their first half: the first has committed the payment refund, and the second finds it
      completed and the return still waiting. */
  lemma BothWait(d: Desk, seller: int, r: nat, k: nat, providerId: string)
    requires TakesTwice(d, seller, r, k, providerId)
    ensures var n, mid := |d.attempts|, CompletePaymentRefund(d.db, k, providerId, true).db;
            Step(Step(d, EvComplete(seller, r, providerId, true)), EvComplete(seller, r, providerId, true))
            == Desk(mid, d.attempts + [Attempt(Completing(r, k, false), true), Attempt(Completing(r, k, true), true)])
  {
    hide LedgerInv, FindRefund, RefundedTotal;
    var one := Step(d, EvComplete(seller, r, providerId, true));
    var mid := CompletePaymentRefund(d.db, k, providerId, true).db;
    assert one == Desk(mid, d.attempts + [Attempt(Completing(r, k, false), true)]);
    assert !Locked(one, r);
    FoundAfter(d.db, k, providerId);
  }

  /** Completing a refund leaves every reference where it was. */
  lemma FoundAfter(db: Db, k: nat, providerId: string)
    requires k < |db.refunds|
    ensures forall reference ::
              FindRefund(CompletePaymentRefund(db, k, providerId, true).db.refunds, reference)
                  == FindRefund(db.refunds, reference)
  {
    forall reference
      ensures FindRefund(CompletePaymentRefund(db, k, providerId, true).db.refunds, reference)
              == FindRefund(db.refunds, reference)
    {
      SameReferences(db.refunds, CompletePaymentRefund(db, k, providerId, true).db.refunds, reference);
    }
  }

  lemma SameReferences(a: seq<Refund>, b: seq<Refund>, reference: string)
    requires |a| == |b| && forall k :: 0 <= k < |a| ==> a[k].reference == b[k].reference
    ensures FindRefund(a, reference) == FindRefund(b, reference)
  {
  }

  /** The rows from which a refund can be taken twice. */
  ghost predicate RoomForTwo(db: Db, r: nat, k: nat) {
    && r < |db.requests| && k < |db.refunds| && db.requests[r].order < |db.orders|
    && db.requests[r].order < |db.payouts| && db.requests[r].order < |db.payments|
    && var i, amount := db.requests[r].order, db.refunds[k].amount;
       var p := db.payouts[i];
       && PayoutInv(p, db.entries, i) && p.status == Eligible && p.sellerFunded + p.fee > 0
       && 0 < amount <= db.orders[i].total && 2 * amount <= p.net
       && !HasEntry(db.entries, i, RefundReversal, db.refunds[k].reference)
       && forall e :: e in db.entries ==> e.amount > 0
  }

  lemma BookedTwice(db: Db, r: nat, k: nat)
    requires RoomForTwo(db, r, k)
    ensures var i, amount, once := db.requests[r].order, db.refunds[k].amount, Book(db, r, k).db;
            && r < |once.requests| && k < |once.refunds| && once.requests[r].order == i
            && i < |once.orders| && |once.payouts| == |db.payouts| && |once.payments| == |db.payments|
            && once.entries == db.entries + [ReversalOf(db, r, k)]
            && once.payouts[i]
               == db.payouts[i].(gross := db.payouts[i].gross - amount, net := db.payouts[i].net - amount)
            && var twice := Book(once, r, k).db;
               && twice.entries == once.entries && |twice.payouts| == |db.payouts|
               && twice.payouts[i]
                  == db.payouts[i].(gross := db.payouts[i].gross - 2 * amount, net := db.payouts[i].net - 2 * amount)
               && twice.payouts == once.payouts[i := twice.payouts[i]]
  {
    var i, e := db.requests[r].order, ReversalOf(db, r, k);
    TotalsFromCounts(db.entries, i, RefundRecovery);
    EntryAdded(db.entries, e, i, RefundRecovery);
    BookOnce(db, r, k);
    var once := Book(db, r, k).db;
    assert once.entries == db.entries + [e] && e in once.entries;
    hide Book, PayoutInv, Total, Count;
    BookOnce(once, r, k);
    assert HasEntry(once.entries, i, RefundReversal, e.source);
    BookTouchesOne(once, r, k);
  }

  lemma BookTouchesOne(db: Db, r: nat, k: nat)
    requires r < |db.requests| && k < |db.refunds| && db.requests[r].order < |db.orders|
    requires db.requests[r].order < |db.payouts| && db.requests[r].order < |db.payments|
    ensures |Book(db, r, k).db.payouts| == |db.payouts|
    ensures var i := db.requests[r].order; Book(db, r, k).db.payouts == db.payouts[i := Book(db, r, k).db.payouts[i]]
  {
    hide AddEntry, Total;
  }

  /** Two overlapping completions of one return: both are booked. The ledger has one reversal, the payout has
      lost the amount twice and fails the balance audit, although its row constraint holds. */
  lemma OverlapTakesTwice(d: Desk, seller: int, r: nat, k: nat, providerId: string)
    requires TakesTwice(d, seller, r, k, providerId)
    ensures var n, i, amount := |d.attempts|, d.db.requests[r].order, d.db.refunds[k].amount;
            var both := Step(Step(d, EvComplete(seller, r, providerId, true)), EvComplete(seller, r, providerId, true));
            var after := Step(Step(both, EvBook(n + 1)), EvBook(n)).db;
            && |after.payouts| == |d.db.payouts|
            && after.entries == d.db.entries + [ReversalOf(d.db, r, k)]
            && after.payouts[i].net == d.db.payouts[i].net - 2 * amount && PayoutConstraint(after.payouts[i])
            && !BalanceAudit(after.payouts[i], after.entries, i)
            && !BalanceIsOwed(after, d.db.payouts[i].account)
  {
    var n, i := |d.attempts|, d.db.requests[r].order;
    var mid := CompletePaymentRefund(d.db, k, providerId, true).db;
    var a, b := Attempt(Completing(r, k, false), true), Attempt(Completing(r, k, true), true);
    RowOf(d.db, i);
    BothWait(d, seller, r, k, providerId);
    PaymentRefundKeepsInv(d.db, k, providerId, true);
    hide LedgerInv, Book, CompletePaymentRefund, FindRefund, Step, PayoutInv, HasEntry;
    BookedTwice(mid, r, k);
    BookKeepsLedger(mid, r, k);
    BookedInTurn(Desk(mid, d.attempts + [a, b]), n, r, k);
    var once := Book(mid, r, k).db;
    TwiceIsUnsound(once, Book(once, r, k).db, i);
  }

  /** An eligible payout that lost net without an entry is out of balance with its entries. */
  lemma TwiceIsUnsound(db: Db, after: Db, i: nat)
    requires LedgerInv(db) && i < |db.payouts| == |after.payouts| && after.entries == db.entries
    requires after.payouts == db.payouts[i := after.payouts[i]] && db.payouts[i].status == Eligible
    requires after.payouts[i] == db.payouts[i].(gross := after.payouts[i].gross, net := after.payouts[i].net)
    requires 0 <= after.payouts[i].net < db.payouts[i].net
    ensures !BalanceAudit(after.payouts[i], after.entries, i) && !BalanceIsOwed(after, db.payouts[i].account)
  {
    RowOf(db, i);
    TotalsFromCounts(db.entries, i, Credit);
    TotalsFromCounts(db.entries, i, RefundReversal);
    hide LedgerInv;
    Unbalanced(db, after, i);
  }

  lemma BookedInTurn(d: Desk, n: nat, r: nat, k: nat)
    requires |d.attempts| == n + 2 && d.attempts[n] == Attempt(Completing(r, k, false), true)
    requires d.attempts[n + 1] == Attempt(Completing(r, k, true), true)
    requires forall a :: 0 <= a < n ==> !d.attempts[a].open
    requires r < |d.db.requests| && k < |d.db.refunds| && d.db.requests[r].order < |d.db.orders|
    requires d.db.requests[r].order < |d.db.payouts| && d.db.requests[r].order < |d.db.payments|
    ensures var once := Book(d.db, r, k).db;
            && r < |once.requests| && k < |once.refunds| && once.requests[r].order == d.db.requests[r].order
            && |once.orders| == |d.db.orders| && |once.payouts| == |d.db.payouts| && |once.payments| == |d.db.payments|
            && Step(Step(d, EvBook(n + 1)), EvBook(n)).db == Book(once, r, k).db
  {
    hide ApplyRefund, RefundAudit, PayoutConstraint;
    assert MayBook(d, n + 1);
    var one := Step(d, EvBook(n + 1));
    assert one.attempts[n] == d.attempts[n] && one.attempts[n + 1].open == false;
    assert MayBook(one, n);
  }
}
