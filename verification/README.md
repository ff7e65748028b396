# A verified model of the marketplace engines and the HUS compiler

This project models the parts of the repository where money, state machines and programs have to stay
consistent, and proves what those parts are for.

| Part | Modules | Follows |
|---|---|---|
| Checkout, discounts, payment session | `Money`, `Sums`, `Orders`, `Split`, `Checkout`, `CheckoutInputs`, `CheckoutAmounts`, `Discount`, `DiscountShares`, `PaymentSession`, `SessionCalls`, `OrderDesk` | `app/engines/marketplace.py`, `app/engines/marketplace_completion.py` |
| Seller ledger, payouts, refunds, statement | `SellerLedger`, `SellerInvariant`, `SellerBalance`, `OrderLife`, `PayoutCalls`, `PayoutGate`, `RefundBooking`, `RefundCalls`, `LedgerOverlap`, `LedgerInTurn`, `RefundTotals`, `RefundRetry`, `SellerStatement`, `LedgerDesk` | `app/engines/marketplace.py`, `app/engines/payments.py` |
| Item returns, featured offer | `Returns`, `ReturnCalls`, `ReturnRefunds`, `ReturnDesk`, `FeaturedOffer` | `app/engines/marketplace.py` |
| Payments, settlement, reconciliation | `Payments`, `PaymentCalls`, `Reconciliation`, `StatementRuns`, `SettlementOverlap`, `SettlementInTurn`, `PaymentDesk` | `app/engines/payments.py` |
| HUS lexer, grammar and parser | `HusLexer`, `HusLexemes`, `HusAst`, `HusGrammar`, `HusParser`, `HusReading`, `HusWriting`, `HusRoundTrip`, `HusText`, `HusSpans`, `HusSyntax`, `ParserDesk` | `app/hus/lexer.py`, `app/hus/parser.py` |
| HUS compiler and planner | `HusCompiler`, `HusAgreement`, `HusContract`, `HusPlanner`, `HusPlanAgreement`, `HusMeaning`, `HusIdentity`, `HusFrontEnd`, `CompilerDesk` | `app/hus/` |
| HUS runtime and approval | `HusRegistry`, `HusRuntime`, `RuntimeTrace`, `RuntimeApproval`, `HusActivation`, `RuntimeAlone`, `RuntimeDesk`, `HusDeployment` | `app/hus/runtime.py`, `app/hus/approval.py`, `app/ai/runtime.py`, `app/hus/operational.py` |
| Stock, delivery, workflow, rate limit | `Stock`, `StockCalls`, `StockBalance`, `StockOverlap`, `StockDesk`, `Delivery`, `DeliveryCalls`, `DeliveryHistory`, `DeliveryRuns`, `DeliveryMirror`, `DeliveryInTurn`, `DeliveryDesk`, `Workflow`, `RateLimit` | `app/engines/`, `app/core/rate_limit.py` |

`dafny verify dfyconfig.toml` checks everything. `Outcomes` and `Sorting` hold result types and the
facts about sorting by distinct keys that several parts share.

## How it is built

Every component has a specification: functions on a value that holds its tables, one function per
operation, error cases included. The theorems are about those functions and about runs of them. Where
the original changes its tables step by step there is a class (a `…Desk` module) whose fields are the
tables and whose methods take the same steps, loops included; each method is proved to leave exactly
what the specification says, so the theorems hold of it.

- What an operation computes is also said apart from its function: amounts by what they are nearest to,
  acceptance by conditions on the rows, sums and statuses by the history of a run, and a tree by a grammar
  that knows nothing of the parser. These are the modules `CheckoutAmounts`, `DiscountShares`,
  `RefundBooking`, `StockBalance`, `HusGrammar`, `HusMeaning`, `RuntimeTrace` and those whose names end in
  `Calls`.
- Money counts units of 0.0001. `_money` rounds ties away from zero and `money` rounds them to even;
  both are modelled, and exact ratios stay exact until they are rounded.
- A call that commits once is one step; when it is refused, nothing has changed. A call that commits or
  reads before it holds what it depends on is two steps or more, and between them anything may happen:
  another call, another half, or a crash. The second half writes what it writes, whatever has become of
  the rows. Modelled in this way:
  - activating a plan (`HusActivation`): the active plans are read before they are locked;
  - settling and closing a run (`SettlementOverlap`): each locks its own row and reads the other's;
  - completing and approving a return refund (`LedgerOverlap`, `ReturnRefunds`): the payment engine
    commits inside (`app/engines/payments.py:304`, `app/engines/payments.py:326`), which also gives up
    the lock on the return;
  - cancelling a marketplace order (`LedgerOverlap`): the commerce order is cancelled, and committed, first;
  - moving and shipping a fulfillment, and taking in a carrier event (`DeliveryRuns`): logistics commits inside;
  - confirming, cancelling and fulfilling a sales order (`StockOverlap`): the order row is never locked.

  For each of these there are three kinds of results: what holds over every interleaving, the exact
  condition on the interleaving for the rest, and a concrete interleaving that breaks it. Theorems said to
  be over runs of whole calls take each call in one piece; `…Alone` lemmas show that the halves of a call,
  with nothing in between, are the whole call.
- Unique constraints are guards, check constraints refuse the row. Decisions of components outside this
  model (provider gates, verified signatures, shipment states in the ledger) are boolean arguments of the
  operations that ask for them.
- The HUS runtime is a protocol: authorize, verify the approval, look up the key, insert it, run the
  handler, commit, or crash. Any number of attempts interleave with each other and with approvals, both
  halves of activations, and registrations; an insert waits while another transaction holds the key.

## What the proofs found

Where the code falls short of what one would expect of it, the model keeps the code and the exact
condition is proved.

- **Last share.** The last line of an order takes what rounding left over, which can be negative; the
  row constraint then refuses the checkout. It cannot happen when its exact share is at least (n-1)/2
  units (`Split.LastShareNonNegative`, `CheckoutInputs.NegativeShareIsRefused`). The exact
  condition for the whole checkout is `CheckoutInputs.CheckoutIff`; for line totals in whole units only
  the last lines matter (`CheckoutInputs.GridCheckoutIff`).
- **Checkout's own audit** passes exactly when rounding line by line agrees with rounding the sums.
  Whole quantities always agree; a cart of two lines of half a unit is refused
  (`Checkout.CheckoutSucceedsIff`, `CheckoutInputs.FractionalCartIsRefused`).
- **A second discount** overwrites the order total with its own amount only. The audit survives a
  request exactly when none of its rows lands on an order that already had a discount
  (`Discount.AuditKeptIff`, `Discount.SecondPromotionBreaksTheAudit`).
- **Discounting after the payment session is open** makes the capture impossible exactly when a total
  moved (`PaymentSession.CapturableIff`).
- **Early settlement and marking paid by hand** are admitted by their guards but succeed only for
  payouts with net 0, because both end in the balance audit (`SellerBalance.EarlySettlementIff`,
  `SellerBalance.MarkPaidIff`). A payout with net 0 can never be paid (`SellerBalance.StepOnPayout`).
- **A refund that completes while its payout is in process** leaves no ledger entry, and the payout
  stays in process for ever (`SellerBalance.InProcessRefundLeavesNoEntry`,
  `SellerBalance.InProcessRefundIsStuck`).
- **A dispute that is dismissed** completes its order, delivered or not, and a completed order's payout is
  settled and paid. Behind every released payout there is a delivery or such a dismissal; orders complete
  only after delivery exactly when no dispute is dismissed before it (`PayoutGate.ReleasedHasReason`,
  `PayoutGate.CompletedIsDeliveredIff`, `PayoutGate.UndeliveredIsPaid`).
- **Overlapping completions of one return** take its amount from the payout twice and write one reversal;
  the payout can then never be paid. Account balances are what is owed exactly when no refund is booked a
  second time at the cost of a credited payout and no cancellation overwrites a paid one, and certainly
  when completions of a return do not overlap (`LedgerOverlap.AlwaysOwedIff`,
  `LedgerOverlap.OverlapTakesTwice`, `LedgerInTurn.OneAtATimeKeepsInv`).
- **A late cancellation** reverses the payout of an order that was paid, settled and paid out meanwhile
  (`LedgerOverlap.LateCancelBreaks`).
- **A refund between the net and the gross** of an open payout is paid to the buyer and then refused on
  the seller side, at every retry: the reduced payout would break its row constraint. The completion
  succeeds exactly when the refund is at most the net or at least the gross; a full refund of an order
  with a seller-funded discount and a fee is in between (`RefundRetry.CompletionSucceedsIff`,
  `RefundRetry.NeverRefunded`, `RefundRetry.FullRefundIsStuck`).
- **Two refunds approved side by side** are both paid out. Refunds stay within the captured amount when
  one is approved only while no other of its order is open (`RefundTotals.TwoOpenRefundsOverpay`,
  `RefundTotals.RefundsWithinCapture`).
- **An approval that is cut short or overtaken** after its first commit leaves a refund that its return does
  not name, and the retry creates another for the same lines. Refunds stay within the lines' amounts
  exactly when no approval begins over an unfinished one (`ReturnRefunds.AlwaysPaidWithinIff`,
  `ReturnRefunds.RetryRefundsTwice`, `ReturnRefunds.RetriedFromOrder`).
- **The seller statement** has no column for recoveries, so its columns explain the movement exactly
  when there is none; consecutive statements both list the shared instant
  (`SellerStatement.ColumnsReconcileIff`, `SellerStatement.SharedBoundary`).
- **Reconciliation.** An expected reference that the provider does not know is counted but not listed,
  so the totals of such a run do not add up (`Reconciliation.TotalsAddUpIff`); the class for duplicate
  provider references is never assigned (`Reconciliation.RowMatchedIff`); and when two closed runs list
  a payment, its settlement may name either, depending on what came first
  (`Reconciliation.SettleCloseCommute`).
- **Settling while closing.** A settling that overlaps the closing of a run that lists its payment leaves the
  settlement pending; no retry repairs it, only another run that lists the payment does. The exact
  condition is `SettlementOverlap.AlwaysReconciledIff`; the input, for every state that admits it and from
  empty tables, is in `SettlementInTurn.OverlapLeavesPending`, `SettlementInTurn.CrossedFromEmpty` and
  `SettlementInTurn.PendingStays`.
- **Overlapping activations** leave two active plans in one tenant: the locks cover the rows that were
  active at the read, and a plan that another transaction activates afterwards is not among them. One
  active plan is kept exactly when no activation commits after it was overtaken, and certainly when
  activations do not overlap (`HusActivation.OneActivePlanIff`, `HusActivation.OverlapLeavesTwo`,
  `HusActivation.OneByOneKeepsOne`).
- **A superseded plan** still commits the execution that was under way
  (`HusRuntime.SupersededPlanStillCommits`).
- **Step ids** join two codes with a dot, and codes may contain dots: different steps can share an id.
  The contract compiler accepts that, the source compiler refuses it, and without dots in workflow
  codes it cannot happen (`HusPlanAgreement.DottedIsRefused`, `HusPlanAgreement.CompilesIff`,
  `HusPlanAgreement.DotFreeIdsDistinct`).
- **The parser** moves its cursor twice after an identifier key, ignores what follows the closing
  brace, and can read past its tokens; all three are modelled (`HusParser`).
- **Repeated policies** collapse in the lowered specification, so the two validators agree on
  acceptance but may report an unknown policy a different number of times
  (`HusAgreement.ValidatorsReportAlike`).
- **A reused event id** of another shipment is ignored by logistics and still lets the fulfillment be
  marked delivered (`DeliveryInTurn.DeliveredWithoutShipment`); the exact condition over every
  interleaving is `DeliveryMirror.DeliveredIsDeliveredIff`.
- **A fulfillment closed while a transition is under way** is reopened by the second half of the
  transition, also beside a new fulfillment of the same order. The exact conditions are
  `DeliveryRuns.OneActiveIff` and `DeliveryRuns.ClosedStayIff`; the input is
  `DeliveryInTurn.OvertakenReopens`, and from empty tables `DeliveryInTurn.ReopenedFromEmpty`.
- **Cancelling a sales order** releases its unexpired reservations only
  (`Stock.CancelReleasesAllIff`). Overlapping the confirmation it releases none of them, and overlapping
  the fulfillment it cancels an order whose goods have left. Stock is never oversold for all that
  (`StockOverlap.CancelledStillHolds`, `StockOverlap.CancelledAfterFulfillment`,
  `StockOverlap.NeverOversold`, `StockOverlap.ClosedStayIff`).
- **A delivery promise of 0 days** scores like 7 (`FeaturedOffer.FasterScoresMoreIff`).
- **A workflow target called "start"** passes the check for defined targets, but the step then breaks;
  the event is refused and nothing is stored (`Workflow.Engine.ApplyEvent`).
- **The rate limiter** admits up to 2·limit - 1 calls in an interval of one window length, and the
  bound is reached for every limit and window; its `retry_after` is rounded down, so waiting it out may
  not be enough (`RateLimit.SlidingBound`, `RateLimit.SlidingBoundIsTight`, `RateLimit.RetryAfterSuffices`).

## Model

| member | source | states |
|---|---|---|
| `Money.HalfUpIsNearest` | app/engines/marketplace.py:47-48 | `_money` returns a nearest 0.0001 unit of any exact ratio, and keeps non-negative amounts non-negative |
| `Money.HalfEvenIsNearest` | app/engines/marketplace_completion.py:19-20 | `money`, with the decimal default of ties to even, is also a nearest unit |
| `Money.UnitsShift` | app/engines/marketplace.py:47-48 | rounding commutes with adding whole units while the sum is not negative, which is why adding shipping after rounding is safe |
| `Split.SharesSumExactly` | app/engines/marketplace.py:964-976 | the shares of an amount over any lines add up to the amount, in either rounding mode, because the last line takes what is left |
| `Split.ShareIsNearest` | app/engines/marketplace.py:964-976 | every share but the last is within half a unit of its exact proportional share |
| `Split.LastShareDrift` | app/engines/marketplace.py:964-976 | the last of n shares is within (n-1)/2 units of its exact share |
| `Split.LastShareNonNegative` | app/engines/marketplace.py:964-976 | the last share is not negative whenever its exact value is at least (n-1)/2 units |
| `Split.LastShareCanBeNegative` | alembic/versions/0019_marketplace_order_financial_allocations.py:37-39 | two units over four equal lines give 1, 1, 1, -1 (half up), and three over five give 1, 1, 1, 1, -1 (half even) |
| `Checkout.GroupingKeepsRows` | app/engines/marketplace.py:816-996 | grouping the cart by seller and currency loses no row value and never lists a key twice |
| `Checkout.OrderPassesIff` | app/engines/marketplace.py:1047-1131 | an order as checkout builds it passes the order, discount and payout checks of the audit exactly when rounding its lines one by one gives its rounded subtotal |
| `Checkout.ShippingAddsUp` | app/engines/marketplace.py:816-996 | with one quote per seller and none missing, the shipping of the seller orders adds up to the shipping the customer pays |
| `Checkout.CustomerPassesIff` | app/engines/marketplace.py:1047-1131 | the customer-order checks hold exactly when rounding the seller subtotals one by one gives the rounded cart subtotal |
| `Checkout.CheckoutSucceedsIff` | app/engines/marketplace.py:816-996 | once the cart passes the screening and every seller order can be built, checkout succeeds if and only if rounding agrees at both levels; otherwise its own audit refuses the cart |
| `Checkout.CheckedOutBook` | app/engines/marketplace.py:816-996 | every checkout that succeeds leaves a book in which every seller order passes the whole audit, no discount exists, both totals of each order agree, and the customer pays the rounded cart plus all quotes |
| `Checkout.WholeQuantitiesAreOnGrid` | app/engines/marketplace.py:959-961 | a whole quantity times any price is a whole number of units |
| `Checkout.GridCartsAgree` | app/engines/marketplace.py:816-996 | when all line totals are whole units, rounding agrees for any number of sellers and lines, so the audit cannot fail |
| `Checkout.FractionalQuantitiesCanDisagree` | app/engines/marketplace.py:816-996 | two lines of half a unit round to two units one by one and to one unit together |
| `CheckoutInputs.FractionalCartIsRefused` | app/engines/marketplace.py:816-996 | the cart of those two lines, one seller and no fee, is refused by the audit of its own checkout |
| `CheckoutInputs.NegativeShareIsRefused` | app/engines/marketplace.py:933-978 | four equal lines of one unit each and a fixed fee of two units: the row constraint on the last allocation refuses the checkout |
| `CheckoutInputs.OrderFitsIff` | app/engines/marketplace.py:933-978 | the rows of an order are accepted if and only if the order and each of its lines cover their fees: no share is negative, and goods plus shipping pay the fee or miss it by less than half a unit |
| `CheckoutInputs.CheckoutIff` | app/engines/marketplace.py:816-996 | for every cart, checkout succeeds if and only if cart and quotes pass the screening, every seller has a fee rule, every order and line covers its fees, and rounding agrees at both levels |
| `CheckoutInputs.ShareIsPaid` | app/engines/marketplace.py:964-976 | when an order can pay its fee, every line but the last can pay its rounded share of it out of its own value and its share of the shipping |
| `CheckoutInputs.GridOrderFitsIff` | app/engines/marketplace.py:933-978 | an order of whole units is accepted by the row constraints if and only if the fee is within goods and shipping and what rounding leaves to the last line is something the line can carry |
| `CheckoutInputs.GridCheckoutIff` | app/engines/marketplace.py:816-996 | for line totals in whole units and quotes in order, checkout succeeds if and only if every seller has a fee rule and the last line of every order fits: a condition on the cart, its quotes and the rules alone |
| `CheckoutInputs.RoomSuffices` | app/engines/marketplace.py:964-976 | the last line fits whenever its exact shares of fee, shipping and net are at least (n-1)/2 units, or (n-1) for the net |
| `CheckoutInputs.GridCheckoutSucceeds` | app/engines/marketplace.py:816-996 | in particular checkout succeeds when every seller has a fee rule and every order has that room |
| `Checkout.AllocationsAreFair` | app/engines/marketplace.py:964-976 | in a created order each line carries its rounded gross and a fee and a shipping share within half a unit of the exact one, the last line within (n-1)/2 |
| `Checkout.SplitOverLines` | app/engines/marketplace.py:964-976 | the loop over `remaining_fee` and `remaining_shipping` produces exactly the allocation rows whose sums and fairness are proved |
| `Checkout.GroupCart` | app/engines/marketplace.py:916-918 | the grouping loop, for any cart |
| `Checkout.CreateOrder` | app/engines/marketplace.py:933-978 | one pass of the order loop: the seller order, or its error when the seller has no fee rule or a row constraint refuses it; what it is charged is `CheckoutAmounts.BookCharges` |
| `Checkout.CreateOrders` | app/engines/marketplace.py:933-978 | all seller orders in group order, or the error of the first that cannot be placed |
| `Checkout.Checkout` | app/engines/marketplace.py:816-996 | the whole call, error cases included, is the function that `CheckoutSucceedsIff` and `CheckedOutBook` are about |
| `Discount.AcceptedItem` | app/engines/marketplace_completion.py:221-290 | an accepted allocation touches one seller order and its rows only, and rewrites both totals of that order to the same amount |
| `Discount.DiscountedOrder` | app/engines/marketplace_completion.py:267-284 | spreading a discount keeps every line, payout and discount check of the audit, takes exactly the seller-funded part from the line nets and from the payout net, and keeps the order-total check if and only if the order had no earlier discount |
| `Discount.NewRowEffect` | app/engines/marketplace_completion.py:258-284 | a new discount row leaves all other orders alone and keeps every check of its own order but possibly the order total |
| `Discount.ItemEffect` | app/engines/marketplace_completion.py:258-284 | an allocation that is already on record changes nothing; any other adds one row |
| `Discount.AuditKeptIff` | app/engines/marketplace_completion.py:221-290 | an accepted request leaves every order passing the whole audit if and only if none of its new rows lands on an order that already had a discount amount |
| `Discount.CustomerTotalDrops` | app/engines/marketplace_completion.py:286-288 | without stacking the customer pays exactly the sum of the newly recorded discounts less |
| `Discount.ResubmissionIsNoop` | app/engines/marketplace_completion.py:258-262 | submitting an accepted request again is accepted and changes nothing |
| `Discount.TotalsStayPaired` | app/engines/marketplace_completion.py:286-288 | after any accepted request, stacked or not, both totals of every order agree and add up to the customer total |
| `Discount.SecondPromotionBreaksTheAudit` | app/engines/marketplace_completion.py:221-290 | an order of 100 discounted by 10 and then by a second promotion of 5 shows 95 instead of 85 and fails the audit |
| `PaymentSession.IntentsPayOrders` | app/engines/marketplace.py:1351-1384 | the intents created for a conserved session pay every seller order its total, in order, and add up to the session, the customer total and the seller totals |
| `PaymentSession.StepKeepsInv` | app/engines/marketplace.py:1294-1384 | discounting, opening and capturing each keep the desk invariant |
| `PaymentSession.CaptureConservesMoney` | app/engines/marketplace.py:1294-1384 | over every run: once the session is captured, captured intents, session amount, customer total and seller totals are the same sum, and nothing in any later run changes the desk |
| `PaymentSession.CapturedIsFinal` | app/engines/marketplace.py:1351-1384 | a captured session refuses or ignores every later step; capturing it again succeeds only with the same provider id |
| `PaymentSession.FreshDesk` | app/engines/marketplace.py:816-996 | every book that checkout creates satisfies the desk invariant, straight from the cart |
| `PaymentSession.StepKeepsCharged` | app/engines/marketplace.py:1294-1384 | every step keeps what the cart came to, and what is captured has passed the audit |
| `PaymentSession.ChargedForCart` | app/engines/marketplace.py:816-996 | from the cart to the charge: whatever discounts, sessions and capture attempts follow a checkout, a captured session has collected the rounded cart plus the quoted shipping minus the discounts on record, one intent per order |
| `PaymentSession.CapturableIff` | app/engines/marketplace.py:1314-1384 | a pending session can be captured exactly when the provider id is given, every intent is accepted, the audit holds and no order total has moved since the session was opened; a discount in between blocks it |
| `OrderDesk.Service.AllocateOrderDiscount` | app/engines/marketplace_completion.py:221-290 | the fields after the call, accepted or refused, are those of the run that the session results are about |
| `OrderDesk.Service.CreatePaymentSession` | app/engines/marketplace.py:1294-1312 | opens the session with one allocation per seller order, or returns the one that exists, or changes nothing |
| `OrderDesk.Service.CapturePaymentSession` | app/engines/marketplace.py:1351-1384 | creates the intents, captures session and order, replays the same provider id, or changes nothing |
| `OrderDesk.CreateIntents` | app/engines/marketplace.py:1365-1380 | one captured intent per allocation, or none at all when one is not positive or not accepted |
| `OrderDesk.AuditAllocations` | app/engines/marketplace.py:1314-1349 | true exactly when every order that the session pays for passes the audit |
| `OrderDesk.CustomerTotal` | app/engines/marketplace_completion.py:286-288 | what the seller orders cost the customer together |
| `OrderDesk.AllocateItem` | app/engines/marketplace_completion.py:237-284 | the body of the allocation loop, with its duplicate check; how it splits a discount is `DiscountShares.AllocationIsSpread` |
| `OrderDesk.SpreadOverLines` | app/engines/marketplace_completion.py:274-284 | the inner loop over `remaining` gives the lines their half-even shares and the last one the rest |
| `SellerInvariant.StartIsInv` | app/engines/marketplace.py:952-977 | what checkout leaves (pending orders, held payouts, no entry) satisfies the ledger invariant |
| `SellerInvariant.OrderStepsKeepInv` | app/engines/marketplace.py:1420-1435 | processing, shipping and dispute steps keep it |
| `SellerInvariant.PayoutStepsKeepInv` | app/engines/marketplace.py:1396-1418 | capture, marking paid, cancelling and requesting a payout keep it |
| `SellerInvariant.DeliveredKeepsInv` | app/engines/marketplace.py:1437-1449 | delivery keeps it: a held payout with a settlement reference has net 0, so the eligibility without a credit entry is harmless |
| `SellerInvariant.SettleKeepsInv` | app/engines/marketplace.py:1461-1499 | settlement keeps it, because its own audit refuses an uncredited payout with a positive net |
| `SellerInvariant.PayoutPaidKeepsInv` | app/engines/marketplace.py:1595-1635 | paying a payout keeps it: one credit, one debit, a reference of its own |
| `SellerInvariant.ApproveKeepsInv` | app/engines/marketplace.py:409-432 | approving a refund keeps it |
| `SellerInvariant.CreateKeepsInv` | app/engines/payments.py:280-304 | creating a refund through the payment engine keeps it |
| `SellerInvariant.PaymentRefundKeepsInv` | app/engines/payments.py:306-327 | the refund completion that commits by itself keeps it |
| `SellerInvariant.ApplyKeepsInv` | app/engines/marketplace.py:434-487 | the effect of a refund on a held, eligible, paid or other payout keeps it |
| `SellerInvariant.ApplyKeepsLedger` | app/engines/marketplace.py:445-487 | the same without any assumption on the returns, unless the effect takes net from a credited payout without writing an entry |
| `SellerInvariant.TransactionKeepsInv` | app/engines/marketplace.py:998-1045 | every call that is one transaction keeps the part about payouts and entries, whatever the returns look like |
| `SellerInvariant.CompleteKeepsInv` | app/engines/marketplace.py:434-487 | completing a return refund, both halves in turn, keeps it, also when the second half is refused after the first was committed |
| `SellerInvariant.StepKeepsInv` | app/engines/marketplace.py:998-1045 | every operation, accepted or refused, keeps it; refunds can also be created and completed through the payment engine alone |
| `SellerInvariant.RunKeepsInv` | app/engines/marketplace.py:998-1045 | every run of whole calls keeps it |
| `SellerBalance.BalanceIsExposure` | app/engines/marketplace.py:1552-1559 | over every run of whole calls, the signed balance of a (seller, market, currency) account is the sum of the nets of credited unpaid payouts minus the recoveries on paid ones |
| `LedgerOverlap.AlwaysOwedIff` | app/engines/marketplace.py:434-487 | over every interleaving of whole calls with both halves of completions, approvals and cancellations: every account balance is what is owed at all times if and only if no second half books a refund that the ledger holds already at the cost of a credited payout, and none cancels an order whose payout has been paid |
| `LedgerOverlap.StepIsOwedIff` | app/engines/marketplace.py:434-487 | one event: from a ledger in balance it leads to a ledger in balance exactly when it is not one of those two |
| `LedgerOverlap.TimelyKeepsLedger` | app/engines/marketplace.py:434-487 | every other event keeps the whole ledger invariant, also the second half of a call that was overtaken |
| `LedgerOverlap.LateBookingBreaks` | app/engines/marketplace.py:445-465 | booking a refund a second time on a credited payout leaves its account out of balance |
| `LedgerOverlap.LateCancelBreaks` | app/engines/marketplace.py:1451-1459 | the second half of a cancellation that finds its payout paid leaves the account out of balance |
| `LedgerOverlap.OverlapTakesTwice` | app/engines/marketplace.py:434-487 | two overlapping completions of one return: the reversal is written once, the payout loses twice the amount, its row constraint holds and its audit fails |
| `LedgerOverlap.CompletionAlone` | app/engines/marketplace.py:434-487 | both halves of a completion with nothing in between are the whole call |
| `LedgerOverlap.ApprovalAlone` | app/engines/marketplace.py:409-432 | so are both halves of an approval |
| `LedgerOverlap.CancelAlone` | app/engines/marketplace.py:1451-1459 | and of a cancellation |
| `LedgerInTurn.OneAtATimeKeepsInv` | app/engines/marketplace.py:409-487 | when completions of one return do not overlap and cancellations find their order still unpaid, every interleaving of everything else keeps the full invariant of ledger and returns, and with it the balances |
| `LedgerInTurn.StepKeepsAlone` | app/engines/marketplace.py:409-487 | each such event keeps the refund of every call in flight untouched and its own |
| `SellerBalance.PaidPayoutIsClosed` | app/engines/marketplace.py:998-1045 | over every run of whole calls, a paid payout has exactly one credit and one debit, both equal to its net, no reversal, recoveries of at most its net, and an external reference that no other payout has |
| `SellerBalance.DebitIsCovered` | app/engines/marketplace.py:1595-1635 | a payout is paid only with a positive net, moves its account down by exactly that net and not below zero, and moves no other account |
| `SellerBalance.InsufficientIff` | app/engines/marketplace.py:1595-1635 | a payout that is otherwise ready is refused for lack of balance exactly when the account is worth less than its net |
| `SellerBalance.StepOnPayout` | app/engines/marketplace.py:1595-1635 | no operation takes a paid payout back, changes its net or its reference, or makes one with net 0 paid |
| `SellerBalance.PaidIsFinal` | app/engines/marketplace.py:1595-1635 | over every later run of whole calls a paid payout stays paid, with its net and reference |
| `SellerBalance.EarlySettlementIff` | app/engines/marketplace.py:1461-1499 | settling an order that is not completed yet succeeds if and only if its payout net is 0, although the guard admits paid, processing, shipped and delivered orders |
| `SellerBalance.SettlementCredits` | app/engines/marketplace.py:1461-1499 | settling a completed order always succeeds, makes the payout eligible and raises the account by its net |
| `SellerBalance.MarkPaidIff` | app/engines/marketplace.py:1396-1418 | marking a pending order paid by hand succeeds if and only if its payout net is 0 |
| `SellerBalance.InProcessRefundLeavesNoEntry` | app/engines/marketplace.py:434-487 | a refund that completes while the payout is in process leaves no ledger entry |
| `SellerBalance.InProcessRefundIsStuck` | app/engines/marketplace.py:1595-1635 | from then on no run of whole calls pays, reverses or reduces that payout |
| `RefundTotals.RefundsWithinCapture` | app/engines/payments.py:280-327 | over every run in which a refund is approved only while no other of its order is open, refunds never exceed what was captured |
| `RefundTotals.CompletionOverpaysIff` | app/engines/payments.py:306-327 | completing a refund passes the captured amount exactly when the refunds so far and this one do: nothing is checked again |
| `RefundTotals.TwoOpenRefundsOverpay` | app/engines/payments.py:280-327 | two full refunds of one order, approved side by side, are both paid out |
| `RefundRetry.ReachedFromStart` | app/engines/marketplace.py:409-487 | every run of whole calls from what checkout leaves keeps each approved return with a refund of its own for its order |
| `RefundRetry.StepKeepsRefunds` | app/engines/marketplace.py:409-487 | every operation keeps that |
| `RefundRetry.ReducedFitsIff` | app/engines/marketplace.py:445-466 | an open payout that meets its row constraint meets it again after the reduction if and only if the refund is at most the net or at least the gross |
| `RefundRetry.CompletionSucceedsIff` | app/engines/marketplace.py:434-487 | once the payment refund is accepted, the whole call succeeds if and only if the refund fits the payout; otherwise the buyer has been paid and the seller side is as it was |
| `RefundRetry.StuckIsRefused` | app/engines/marketplace.py:434-487 | a refund between the net and the gross of an open payout is refused on every attempt, whatever the provider says |
| `RefundRetry.NeverRefunded` | app/engines/marketplace.py:434-487 | over every later run of whole calls: unless the return is moved by hand, it stays as it is and every completion is refused for as long as its payout is open with the same gross |
| `RefundRetry.FullRefundIsStuck` | app/engines/marketplace.py:434-487 | the full refund of an order of 100 with a seller-funded discount of 10 and a fee of 5: the buyer gets 90, and the return is stuck |
| `SellerStatement.SellerStatement` | app/engines/marketplace.py:1501-1523 | the two passes give the opening balance, the three columns, the available balance and the rows with their running balance |
| `SellerStatement.RunningBalance` | app/engines/marketplace.py:1511-1523 | each listed balance follows from the one before it and ends at the available balance |
| `SellerStatement.OpenEndShowsBalance` | app/engines/marketplace.py:1501-1523 | a statement without an end shows the account balance as available, wherever it starts |
| `SellerStatement.ColumnsReconcileIff` | app/engines/marketplace.py:1501-1523 | credits minus refunds minus payouts explain the movement if and only if the window holds no refund recovery, which no column shows |
| `SellerStatement.SharedBoundary` | app/engines/marketplace.py:1501-1523 | consecutive statements list the entries of the shared instant twice: the first ends on the second opening plus exactly those |
| `LedgerDesk.Ledger.constructor` | app/engines/marketplace.py:952-977 | starts from what checkout leaves |
| `LedgerDesk.Ledger.BalanceEntry` | app/engines/marketplace.py:1536-1550 | appends the entry unless the amount is not positive or the payout already has one of that kind and source |
| `LedgerDesk.Ledger.AvailableBalance` | app/engines/marketplace.py:1552-1559 | the signed sum of the account's entries |
| `LedgerDesk.Ledger.AuditBalance` | app/engines/marketplace.py:998-1045 | true exactly when the payout passes the balance audit, in one pass over the entries |
| `LedgerDesk.Ledger.CapturePayment` | app/engines/marketplace.py:1351-1384 | the order of a captured session becomes paid, with its payment |
| `LedgerDesk.Ledger.MarkPaid` | app/engines/marketplace.py:1396-1418 | pending to paid, then the audit, or no change at all |
| `LedgerDesk.Ledger.MarkProcessing` | app/engines/marketplace.py:1420-1426 | paid to processing, or refused |
| `LedgerDesk.Ledger.MarkShipped` | app/engines/marketplace.py:1428-1435 | shipped once the shipment moves, or refused |
| `LedgerDesk.Ledger.MarkDelivered` | app/engines/marketplace.py:1437-1449 | completed with a delivered shipment; a settled held payout becomes eligible |
| `LedgerDesk.Ledger.Cancel` | app/engines/marketplace.py:1451-1459 | a pending order is cancelled and its payout reversed, or refused |
| `LedgerDesk.Ledger.OpenDispute` | app/engines/marketplace.py:1646-1650 | at most one dispute per order; the order becomes disputed |
| `LedgerDesk.Ledger.ResolveDispute` | app/engines/marketplace.py:494-503 | a decision other than resolved completes a disputed order |
| `LedgerDesk.Ledger.Settle` | app/engines/marketplace.py:1461-1499 | links the settlement, credits a completed order, runs both audits, or changes nothing |
| `LedgerDesk.Ledger.RequestPayout` | app/engines/marketplace.py:1572-1593 | eligible to in process under the gates, or refused |
| `LedgerDesk.Ledger.ReferenceInUse` | app/engines/marketplace.py:1595-1635 | true exactly when another payout carries the external reference |
| `LedgerDesk.Ledger.MarkPayoutPaid` | app/engines/marketplace.py:1595-1635 | one debit against the available balance, both audits, or no change; a repeat with the same reference is a replay |
| `LedgerDesk.Ledger.RequestReturn` | app/engines/marketplace.py:348-354 | opens a return of a delivered, completed or disputed order |
| `LedgerDesk.Ledger.AdvanceReturn` | app/engines/marketplace.py:384-407 | the moves of review and advance, and no other |
| `LedgerDesk.Ledger.Refunded` | app/engines/payments.py:297-300 | what completed refunds of an order add up to |
| `LedgerDesk.Ledger.ApproveRefund` | app/engines/marketplace.py:409-432 | both halves of the approval when nothing comes between them: an inspected return gets a refund of its own within what is left of the payment |
| `LedgerDesk.Ledger.CreateRefund` | app/engines/payments.py:280-304 | a refund of the payment, requested and committed by itself, unless completed ones leave no room |
| `LedgerDesk.Ledger.BeginApproval` | app/engines/marketplace.py:409-425 | the first half of an approval: the checks, and the refund |
| `LedgerDesk.Ledger.Grant` | app/engines/marketplace.py:426-432 | the second half: the return names the refund, whatever it has become |
| `LedgerDesk.Ledger.Book` | app/engines/marketplace.py:445-487 | the second half of a completion: return, order, payout and entry, or a refusal |
| `LedgerDesk.Ledger.CompletePaymentRefund` | app/engines/payments.py:306-327 | the refund succeeds and the payment is marked, committed by itself |
| `LedgerDesk.Ledger.ApplyRefund` | app/engines/marketplace.py:445-487 | a held or eligible payout shrinks and leaves a reversal if it was credited, a paid one owes a recovery: the amount, or what is left of its net, as `RefundBooking.BookingTakes` says |
| `LedgerDesk.Ledger.CompleteReturnRefund` | app/engines/marketplace.py:434-487 | both halves of the completion when nothing comes between them, or the first alone when the second is refused |
| `Returns.RunKeepsInv` | app/engines/marketplace.py:356-407 | over every interleaving of item-return steps, with both halves of approvals and completions: line status and request status stay together, order lines within their ordered quantity, and every call in flight still finds its request inspected, approved or refunded |
| `Returns.ReturnsStayWithin` | app/engines/marketplace.py:356-407 | over every interleaving, active return lines of an order line never exceed its ordered quantity, and their amounts exceed its value by at most half a unit per return line, by nothing for whole quantities |
| `ReturnRefunds.AlwaysPaidWithinIff` | app/engines/marketplace.py:409-432 | over every interleaving, what is approved for a return stays within the amounts of its lines at all times if and only if no approval of it begins while an earlier one is under way or was cut short |
| `ReturnRefunds.NextKeepsRefunds` | app/engines/marketplace.py:409-432 | one step: from refunds within bounds it leads to refunds within bounds exactly when it is not such an approval, and every approval that began keeps a refund of its own |
| `ReturnRefunds.RefundsStayWithin` | app/engines/marketplace.py:409-432 | as long as that does not happen, all item refunds approved for an order together exceed the value of its lines by at most half a unit per active return line, by nothing for whole quantities |
| `ReturnRefunds.RefundsCovered` | app/engines/marketplace.py:409-432 | request by request: no refund without an inspected return, and none above the amounts of its lines |
| `ReturnRefunds.RetryRefundsTwice` | app/engines/marketplace.py:425-431 | an approval that dies between its two commits and is retried: two refunds of the same lines, of which the return names one |
| `ReturnRefunds.RetriedFromOrder` | app/engines/marketplace.py:409-432 | from an order of one item: twice its price is approved and the bound fails |
| `Returns.ApproveAlone` | app/engines/marketplace.py:409-432 | both halves of an approval with nothing in between are the whole call |
| `Returns.CompleteAlone` | app/engines/marketplace.py:434-447 | so are both halves of a completion |
| `Returns.InactiveStays` | app/engines/marketplace.py:384-407 | no step makes a rejected or cancelled return line active again |
| `Returns.AmountBound` | app/engines/marketplace.py:356-376 | the amounts of active return lines against the value of what they return |
| `ReturnDesk.Service.RequestItemReturn` | app/engines/marketplace.py:356-376 | one line per item against what is left of its order line, or no change at all with the first item's error |
| `ReturnDesk.Service.CountReturning` | app/engines/marketplace.py:371-371 | the quantity of an order line in active return lines |
| `ReturnDesk.Service.ReviewReturn` | app/engines/marketplace.py:384-393 | approved or rejected, with all its lines |
| `ReturnDesk.Service.AdvanceReturn` | app/engines/marketplace.py:395-407 | the next status; only receipt and cancellation move the lines |
| `ReturnDesk.Service.StartApproval` | app/engines/marketplace.py:409-425 | the first half of an approval: a refund of the sum of the request's lines, which stays inspected, or no change |
| `ReturnDesk.Service.GrantReturn` | app/engines/marketplace.py:426-432 | the second half: request and lines, whatever has become of them |
| `ReturnDesk.Service.ApproveReturnRefund` | app/engines/marketplace.py:409-432 | both halves when nothing comes between them: the refund, and the request with its lines back to approved, or no change |
| `ReturnDesk.Service.CheckReturn` | app/engines/marketplace.py:434-443 | the checks of a completion |
| `ReturnDesk.Service.ConcludeReturn` | app/engines/marketplace.py:445-447 | its second half: refunded, with all lines |
| `ReturnDesk.Service.CompleteReturnRefund` | app/engines/marketplace.py:434-447 | both halves when nothing comes between them; a repeat changes nothing |
| `FeaturedOffer.RoundingIsMonotone` | app/engines/marketplace.py:703-709 | rounding half to even never reverses an order |
| `FeaturedOffer.PriceScoreRange` | app/engines/marketplace.py:703-705 | price scores lie in 0 to 100, and the cheapest offer has 100 |
| `FeaturedOffer.PriceScoreOrder` | app/engines/marketplace.py:703-705 | a cheaper offer never has a lower price score |
| `FeaturedOffer.ScoreRange` | app/engines/marketplace.py:706-709 | scores lie in 0 to 100 |
| `FeaturedOffer.BetterNeverScoresLower` | app/engines/marketplace.py:687-709 | an offer at least as good on landed price, delivery score, stock and rating never scores lower, through both roundings |
| `FeaturedOffer.FasterScoresMoreIff` | app/engines/marketplace.py:692-692 | a shorter promise scores at least as much unless it is 0 days, which counts as 7, against fewer than 7 |
| `FeaturedOffer.Featured` | app/engines/marketplace.py:687-714 | the chosen offer is ahead of every other by score and then by smaller id, with the true lowest and highest landed price |
| `FeaturedOffer.FirstIsUnique` | app/engines/marketplace.py:711-714 | only one offer can be ahead of all others |
| `Reconciliation.IntentOpsKeepInv` | app/engines/payments.py:62-112 | creating, processing, attaching and capturing keep the payment invariant |
| `Reconciliation.WebhookKeepsInv` | app/engines/payments.py:121-176 | so does every webhook, repeated or not |
| `Reconciliation.SettleKeepsInv` | app/engines/payments.py:208-278 | settling keeps it |
| `Reconciliation.ReconcileKeepsInv` | app/engines/payments.py:329-421 | booking a statement keeps it |
| `Reconciliation.CloseKeepsInv` | app/engines/payments.py:423-449 | closing a run keeps it |
| `Reconciliation.RunKeepsInv` | app/engines/payments.py:62-449 | every run of whole calls from empty tables satisfies it |
| `Reconciliation.ReconciledIffProved` | app/engines/payments.py:208-449 | over every run of whole calls, a settlement is reconciled exactly when a closed run of its provider, market and currency lists its payment as matched; it carries its payment's amount, each payment has at most one settlement, and closed runs hold matched items only |
| `SettlementOverlap.AlwaysReconciledIff` | app/engines/payments.py:208-449 | over every interleaving of the reads and commits of settlings and closings with everything else: a settlement is reconciled exactly when a closed run lists its payment, at all times, if and only if no settling commits after the closing of a run that lists its payment overtook it, and no closing after the settling of a payment that it lists |
| `SettlementOverlap.NextKeeps` | app/engines/payments.py:208-449 | each event keeps tables, locks and reads in order, and leaves a settlement pending exactly when it is such a late commit |
| `SettlementOverlap.NeverUnproved` | app/engines/payments.py:208-449 | whatever overlaps, a reconciled settlement is proved by a closed run, has its payment's amount, and is the payment's only one |
| `SettlementInTurn.OneByOneReconciles` | app/engines/payments.py:208-449 | when no settling of a payment overlaps a closing of a run that lists it, settlements are reconciled exactly when they are proved |
| `SettlementInTurn.OverlapLeavesPending` | app/engines/payments.py:240-253 | in any state with a payment to settle and a matched run that lists it: settling looks for a closed run, closing looks for settlements, both commit; the settlement stays pending, and settling or closing again answers with the same state |
| `SettlementInTurn.PendingStays` | app/engines/payments.py:423-449 | over every later interleaving a pending settlement stays exactly as it is until another run that lists its payment is closed |
| `SettlementInTurn.CrossedFromEmpty` | app/engines/payments.py:208-449 | the same from empty tables, as a run of ten events |
| `SettlementInTurn.SettleAlone` | app/engines/payments.py:208-278 | both halves of a settling with nothing in between are the whole call |
| `SettlementInTurn.CloseAlone` | app/engines/payments.py:423-449 | so are all the reads of a closing and its commit |
| `Reconciliation.SettleCloseCommute` | app/engines/payments.py:208-449 | a settlement and a closing that are each possible are possible in either order, with the same tables, up to which of two proving runs a settlement names |
| `Reconciliation.RowMatchedIff` | app/engines/payments.py:359-403 | a statement row is matched if and only if a known payment of its provider and market has exactly its id, currency and amount; the class for duplicate provider references is never assigned |
| `Reconciliation.TallyKeeps` | app/engines/payments.py:359-403 | after every row: each item says truly what its row resolved to and whether it matched, the payments seen are those of the items, and the counters are their counts |
| `Reconciliation.AllMatchedIff` | app/engines/payments.py:359-403 | a statement has no exception exactly when every row pays a known payment exactly |
| `Reconciliation.ClosableIff` | app/engines/payments.py:329-449 | a new run can be closed if and only if every row pays a known payment exactly and every expected payment that the provider knows has a row |
| `Reconciliation.TotalsAddUpIff` | app/engines/payments.py:404-417 | the stored totals add up if and only if every expected reference without a row is a payment of that provider; an unknown one is counted but not listed |
| `Reconciliation.IntentLife` | app/engines/payments.py:62-206 | whatever step is taken, a payment keeps its contract and its provider id, moves only along the given table of statuses (failed, cancelled and refunded are final, captured leads to refunded only), and is captured only with a provider id |
| `PaymentDesk.Service.constructor` | app/engines/payments.py:35-36 | starts with empty tables |
| `PaymentDesk.Service.CreateIntent` | app/engines/payments.py:62-85 | a new reference gets a pending intent with its contract; a known one is refused |
| `PaymentDesk.Service.MarkProcessing` | app/engines/payments.py:87-92 | pending becomes processing, or no change |
| `PaymentDesk.Service.AttachProviderPayment` | app/engines/payments.py:94-112 | an id is given once, and to one payment of a provider |
| `PaymentDesk.Service.ProcessWebhook` | app/engines/payments.py:121-176 | id and status together, or nothing; a repeated event changes nothing |
| `PaymentDesk.Service.CaptureVerified` | app/engines/payments.py:185-206 | captured only after verification, and once |
| `PaymentDesk.Service.Settle` | app/engines/payments.py:208-278 | one settled settlement per payment, reconciled at once when a closed run proves it |
| `PaymentDesk.Service.FindProof` | app/engines/payments.py:240-253 | the first closed run that lists the payment |
| `PaymentDesk.Service.ReconcileBatch` | app/engines/payments.py:329-421 | books one run for a statement, replays a booked one, or changes nothing |
| `PaymentDesk.Service.ClassifyRows` | app/engines/payments.py:359-403 | the row loop, or the error of the first refused row |
| `PaymentDesk.Service.ListMissing` | app/engines/payments.py:404-413 | one exception per expected payment without a row |
| `PaymentDesk.Service.CloseReconciliationRun` | app/engines/payments.py:423-449 | closes a fully matched run and marks the settlements of its payments, or changes nothing |
| `PaymentDesk.MarkPayment` | app/engines/payments.py:437-447 | the inner loop marks exactly the settlements of that payment with the run's provider and market |
| `HusRuntime.StepKeepsInv` | app/hus/runtime.py:149-286 | every step of every attempt, and every change of actions, plans and handlers in between, keeps the protocol invariant |
| `HusRuntime.RunKeepsInv` | app/hus/runtime.py:149-286 | so does every interleaving |
| `HusRuntime.OneEffectPerKey` | alembic/versions/0041_hus_execution_idempotency.py:17-22 | in every interleaving no two committed effects and no two records have a tenant, compilation and key in common, and an effect under a key is the one of its finished record |
| `HusRuntime.EffectsAreLicensed` | app/hus/approval.py:16-78 | every effect is of a registered action; every mutation matches an approved action on all six bound fields and had a mutation handler |
| `HusRuntime.OneEffectPerAction` | app/ai/runtime.py:30-59 | two committed mutations never share an approval: one approved action licenses at most one effect |
| `HusRuntime.FinishedAttemptsAgree` | app/hus/runtime.py:94-107 | attempts that finish under one key asked for the same plan, step, action, actor and arguments and return the same record |
| `HusRuntime.ResultsAreFinal` | app/hus/runtime.py:94-107 | whatever happens next, a finished attempt and its record do not change |
| `HusRuntime.UsedKeyReplaysIff` | app/hus/runtime.py:149-222 | under a used key an attempt returns the stored result if and only if actor, action, step, plan hash and arguments are those of the record; otherwise it is rejected; either way nothing is committed |
| `HusActivation.OneActivePlanIff` | app/hus/operational.py:16-26 | over every interleaving of activations in two halves (lock and read, lock and commit) with everything else, a tenant never has two active plans if and only if no activation commits after it was overtaken, that is after another activation of the tenant, of a plan it had not read, committed since its read |
| `HusActivation.StepKeepsPlans` | app/hus/operational.py:16-26 | every step keeps the log of activations and the locks of those in flight, and keeps one active plan per tenant exactly when it is no late commit |
| `HusActivation.OverlapLeavesTwo` | app/hus/operational.py:16-26 | two compiled plans whose activations both read before either commits end up both active, whatever was active before: the lock on the active rows does not stop it |
| `HusActivation.OneByOneKeepsOne` | app/hus/operational.py:16-26 | activations of a tenant that never overlap keep one active plan, over every run |
| `HusActivation.ActivationAlone` | app/hus/operational.py:16-26 | the two halves without interference supersede every other active plan of the tenant and activate the one named |
| `HusRuntime.SupersededPlanStillCommits` | app/hus/runtime.py:228-286 | an execution that is under way when an activation commits and supersedes its plan commits its effect all the same |
| `HusRuntime.ApproveKeepsInv` | app/ai/runtime.py:30-59 | approving an action keeps it, so that what licensed earlier effects stays in place |
| `HusRuntime.CommitKeepsInv` | app/hus/runtime.py:228-286 | committing keeps it: record and effect appear together, under a key that no other record, effect or running attempt has |
| `HusRuntime.InsertKeepsInv` | app/hus/runtime.py:199-222 | inserting under the unique key, waiting for it, or falling back to the committed record keeps it |
| `RuntimeAlone.StepsAreAtomic` | app/hus/runtime.py:132-286 | the protocol steps of one execution, not interleaved, are one atomic call |
| `RuntimeAlone.AloneMeans` | app/hus/runtime.py:149-286 | that call adds one record, and one effect if the handler finished, exactly when it is allowed and the key is unused; its answer is the outcome of its record or a refusal |
| `RuntimeDesk.Runtime.constructor` | app/hus/runtime.py:113-118 | no handler, no record, no effect |
| `RuntimeDesk.Runtime.ActivateCompilation` | app/hus/operational.py:16-26 | supersedes whatever else is active in the tenant, then activates; refuses other states |
| `RuntimeDesk.Runtime.ProposeAction` | app/ai/runtime.py:20-28 | a pending action of a run that exists |
| `RuntimeDesk.Runtime.ApproveAction` | app/ai/runtime.py:30-59 | approved, a mutation only together with its six-field binding, or no change |
| `RuntimeDesk.Runtime.RegisterReadHandler` | app/hus/runtime.py:127-130 | registers a handler for a registered read only |
| `RuntimeDesk.Runtime.RegisterMutationHandler` | app/hus/runtime.py:119-122 | registers a handler for a registered non-read only |
| `RuntimeDesk.Runtime.ConfigureApprovalVerifier` | app/hus/runtime.py:124-125 | a verifier is in place |
| `RuntimeDesk.Runtime.VerifyApproval` | app/hus/approval.py:16-78 | true exactly when an approved action with a matching binding exists and its approver may approve |
| `RuntimeDesk.Runtime.CheckApproval` | app/hus/runtime.py:156-165 | a read always may run, a mutation with approval, a valid record and a key |
| `RuntimeDesk.Runtime.CallHandler` | app/hus/runtime.py:228-262 | the outcome of the registered handler, or a failure when there is none |
| `RuntimeDesk.Runtime.RecordUnder` | app/hus/runtime.py:94-107 | the committed record under a key, found by search |
| `RuntimeDesk.Runtime.Execute` | app/hus/runtime.py:149-286 | replay, refusal, or one record and its effect: the whole new state |
| `RuntimeDesk.Runtime.ExecuteStep` | app/hus/runtime.py:288-290 | authorize and execute leave the rows and give the answer of the protocol run without interference |
| `HusLexer.LexTokenizes` | app/hus/lexer.py:33-66 | the tokens of an accepted source are ordered, disjoint, each what its span says with its true line and column, and only whitespace and comments lie between them |
| `HusLexer.TokenizationIsLex` | app/hus/lexer.py:33-66 | conversely, any such reading of a source is what the lexer returns: the tokenization is unique |
| `HusLexer.AdvanceIsTrue` | app/hus/lexer.py:28-32 | advancing keeps line and column true to the position |
| `HusLexer.LexemeKeeps` | app/hus/lexer.py:33-66 | a lexeme followed by a space is read again as the same kind and value |
| `HusLexer.RenderKeepsTokens` | app/hus/lexer.py:33-66 | writing every lexeme followed by one space gives the same kinds and values back, at any starting position |
| `HusLexer.Lexer.constructor` | app/hus/lexer.py:27-27 | position 0, line 1, column 1 |
| `HusLexer.Lexer.Advance` | app/hus/lexer.py:28-32 | moves by the length and keeps the counters true |
| `HusLexer.Lexer.StringLiteral` | app/hus/lexer.py:46-59 | the loop over quotes, escapes and line ends finds the literal or its error |
| `HusLexer.Lexer.Next` | app/hus/lexer.py:36-65 | the gap, lexeme or error at the position |
| `HusLexer.Lexer.Tokens` | app/hus/lexer.py:33-66 | the whole loop returns the tokens, or the first error with its token |
| `HusSyntax.StripParse` | app/hus/parser.py:48-120 | parsing commutes with forgetting places: same acceptance, same errors, same tree |
| `HusSyntax.TreeFromTokens` | app/hus/parser.py:48-120 | the tree, up to spans, depends on token kinds and values only |
| `ParserDesk.Parser.constructor` | app/hus/parser.py:13-13 | cursor 0 |
| `ParserDesk.Parser.Expect` | app/hus/parser.py:15-18 | the token of the kind, or a refusal that leaves the cursor: result and cursor are those of the grammar function that `HusReading.SourceRead` is about |
| `ParserDesk.Parser.Skip` | app/hus/parser.py:19-21 | skips one token of the kind, if it is there |
| `ParserDesk.Parser.Name` | app/hus/parser.py:32-36 | an identifier |
| `ParserDesk.Parser.Word` | app/hus/parser.py:37-40 | a string or an identifier |
| `ParserDesk.Parser.Flag` | app/hus/parser.py:74-116 | true or false |
| `ParserDesk.Parser.ScalarValue` | app/hus/parser.py:23-31 | string, number, boolean or identifier |
| `ParserDesk.Parser.List` | app/hus/parser.py:41-47 | strings separated by commas, in brackets |
| `ParserDesk.Parser.OrganizationDecl` | app/hus/parser.py:63-73 | organization fields, later ones replacing earlier ones |
| `ParserDesk.Parser.Opening` | app/hus/parser.py:74-106 | keyword, name and opening brace |
| `ParserDesk.Parser.FieldKey` | app/hus/parser.py:74-110 | the key of a field; an identifier moves the cursor twice |
| `ParserDesk.Parser.DomainDecl` | app/hus/parser.py:74-86 | a domain and its fields: result and cursor are those of the grammar function that `HusReading.SourceRead` is about |
| `ParserDesk.Parser.DomainValue` | app/hus/parser.py:76-85 | the value of one domain field |
| `ParserDesk.Parser.Step` | app/hus/parser.py:104-116 | a step with its action and approval |
| `ParserDesk.Parser.WorkflowValue` | app/hus/parser.py:89-102 | the value of one workflow field |
| `ParserDesk.Parser.WorkflowDecl` | app/hus/parser.py:87-103 | a workflow with its steps in order: result and cursor are those of the grammar function that `HusReading.SourceRead` is about |
| `ParserDesk.Parser.PolicyDecl` | app/hus/parser.py:117-118 | a policy |
| `ParserDesk.Parser.MetadataDecl` | app/hus/parser.py:119-120 | a metadata entry |
| `ParserDesk.Parser.Item` | app/hus/parser.py:50-60 | one declaration, a second organization replacing the first |
| `ParserDesk.Parser.ParseTokens` | app/hus/parser.py:48-62 | the module, or the first error; reading past the last token is an error of its own: result and cursor are those of the grammar function that `HusReading.SourceRead` is about |
| `HusAgreement.ValidatorsReportAlike` | app/hus/semantic.py:6-34 | on a tree the parser built, both validators report the same codes in the same order for domains, workflows, steps and actions; policies agree on acceptance |
| `HusAgreement.ValidatorsAgree` | app/hus/compiler.py:32-89 | `validate_ast` accepts such a tree exactly when the version is 1.0 and `compile_spec` of its lowering has no diagnostic |
| `HusContract.AcceptedIff` | app/hus/compiler.py:32-89 | a specification is accepted if and only if it has no unknown field, a valid head, well-formed domains and workflows with distinct codes, registered actions and capabilities, and known policies |
| `HusContract.ContractIgnoresOrder` | app/hus/compiler.py:91-140 | permuting domains or workflows, and permuting or repeating capabilities, changes neither acceptance nor the contract |
| `HusContract.BindingsAscend` | app/hus/compiler.py:105-110 | the bindings of sorted domains come out strictly ascending |
| `HusContract.ContractBindingsAscend` | app/hus/compiler.py:105-110 | so those of every accepted contract are, without repeats |
| `HusPlanner.BuiltIr` | app/hus/planner.py:31-63 | the plan of an accepted tree exists exactly when no workflow has more than 128 steps; it has the workflows in code order, each step depending on the one before; it validates exactly when no step id repeats |
| `HusPlanner.ValidateIff` | app/hus/planner.py:83-95 | a built plan passes the validator if and only if no step id repeats: its dependency checks never fire |
| `HusPlanner.CheckStepsIff` | app/hus/planner.py:83-95 | the same for one workflow against the ids seen before |
| `HusPlanAgreement.CompilesIff` | app/hus/compiler.py:143-162 | a parsed tree compiles if and only if it is valid, no workflow has more than 128 steps and no step id repeats; the contract compiler never refuses after the validator accepted |
| `HusPlanAgreement.IrIgnoresOrder` | app/hus/planner.py:31-63 | declaring the workflows in another order gives the same plan |
| `HusPlanAgreement.PlanFromTree` | app/hus/compiler.py:115-137 | the contract's plan is the tree's workflows in code order, one by one |
| `HusPlanAgreement.PlansAgree` | app/hus/planner.py:31-63 | both generated plans list the same workflows and steps in the same order, with the same action, read class and idempotency flag, each step depending on its predecessor |
| `HusPlanAgreement.DottedIsRefused` | app/hus/planner.py:83-95 | the tree with workflow `a.b`, step `c` and workflow `a`, step `b.c` is accepted by the contract compiler and refused by the source compiler for the repeated id `a.b.c` |
| `HusPlanAgreement.RefusedForRepeat` | app/hus/planner.py:83-95 | an accepted tree within the step limit that does not compile is refused for an id that two of its steps share |
| `HusPlanAgreement.DotFreeIdsDistinct` | app/hus/planner.py:28-29 | without dots in workflow codes an accepted tree has no repeated step id |
| `HusDeployment.PlanStepsFind` | app/hus/runtime.py:75-85 | with distinct ids the runtime's dictionary finds every step of the plan |
| `HusDeployment.EveryStepAuthorizes` | app/hus/runtime.py:132-147 | every step of a compiled, active plan is authorized, with its own action and plan hash, once non-read steps carry an approval reference |
| `HusFrontEnd.ParsedIsBuilt` | app/hus/parser.py:48-120 | every tree parsed from a source has non-empty names, codes and actions, so the agreement of the validators holds of it |
| `HusFrontEnd.CompilePlain` | app/hus/lowering.py:8-30 | compilation and canonical form do not depend on spans |
| `HusFrontEnd.LayoutDoesNotMatter` | app/hus/lowering.py:20-30 | a source and its lexemes written one space apart have the same outcome: the same error, or the same canonical tree, contract and plan |
| `HusFrontEnd.TextCompilesIff` | app/hus/compiler.py:143-162 | a source text compiles if and only if it lexes, parses, has version 1.0, lowers to an accepted specification, stays within 128 steps per workflow and repeats no step id |
| `CompilerDesk.ValidateAst` | app/hus/semantic.py:6-34 | all codes of the tree, in the order of the loops |
| `CompilerDesk.ValidateDomains` | app/hus/semantic.py:10-18 | the codes of every domain against the codes seen before it |
| `CompilerDesk.ValidateSteps` | app/hus/semantic.py:21-29 | the codes of every step against the steps of its workflow |
| `CompilerDesk.ValidateAction` | app/hus/semantic.py:24-29 | no dot, unknown engine or unknown capability |
| `CompilerDesk.ValidateWorkflows` | app/hus/semantic.py:17-29 | duplicates and steps of every workflow |
| `CompilerDesk.ValidatePolicies` | app/hus/semantic.py:30-32 | one code per unknown policy |
| `CompilerDesk.Compile` | app/hus/compiler.py:32-141 | the contract, or every diagnostic in order |
| `CompilerDesk.DiagnoseDomains` | app/hus/compiler.py:44-56 | the diagnostics of the domain loop |
| `CompilerDesk.DiagnoseSteps` | app/hus/compiler.py:69-82 | the diagnostics of the step loop |
| `CompilerDesk.DiagnoseWorkflows` | app/hus/compiler.py:59-82 | the diagnostics of the workflow loop |
| `CompilerDesk.Resolve` | app/hus/compiler.py:91-140 | the contract of an accepted specification, sorted |
| `CompilerDesk.Bind` | app/hus/compiler.py:105-110 | one binding per enabled domain and capability |
| `CompilerDesk.Plan` | app/hus/compiler.py:115-137 | the plan of the resolved workflows |
| `CompilerDesk.Build` | app/hus/planner.py:31-63 | the plan, or the error of the first bad workflow |
| `CompilerDesk.BuildWorkflow` | app/hus/planner.py:37-60 | the loop over `previous`; what its steps say, approval included, is `HusMeaning.PlanMeans` |
| `CompilerDesk.ValidatePlan` | app/hus/planner.py:83-95 | the first objection of the plan validator, if any |
| `CompilerDesk.ValidatePlanSteps` | app/hus/planner.py:86-95 | the inner loop over `seen` and `previous` |
| `Stock.StepKeepsInv` | app/engines/commerce.py:104-248 | receipts, drafts, confirmations, cancellations and fulfillments keep the stock invariant, whichever warehouses allow negative stock |
| `Stock.ConfirmKeepsInv` | app/engines/commerce.py:136-172 | confirming keeps reservations within stock, also when several lines want one item |
| `Stock.CancelKeepsInv` | app/engines/commerce.py:193-212 | cancelling keeps it |
| `Stock.RunKeepsInv` | app/engines/commerce.py:66-248 | so does every run of whole calls |
| `Stock.FulfillNeverFails` | app/engines/commerce.py:214-248 | a confirmed order in a warehouse without negative stock is always fulfilled: no line misses its reservation, its stock or its movement reference |
| `Stock.FulfillKeepsInv` | app/engines/commerce.py:214-248 | fulfilling keeps the stock invariant, in warehouses with negative stock too |
| `Stock.NeverOversold` | app/engines/commerce.py:66-94 | over every run of whole calls, in each warehouse without negative stock, whatever the others allow: active reservations lie between 0 and the stock computed from the movements, and its confirmed orders can be fulfilled |
| `StockOverlap.NeverOversold` | app/engines/commerce.py:136-248 | the same over every interleaving of the reads and commits of confirmations, cancellations and fulfillments, which read their order before they lock the warehouse |
| `StockOverlap.NextKeepsDesk` | app/engines/commerce.py:136-248 | each event keeps stock covered, every reservation with its own line, and every confirmed order with all of its reservations |
| `StockOverlap.FulfilledWasReady` | app/engines/commerce.py:214-248 | a fulfillment that succeeds has found every line with its own active reservation, whatever the order's status has become |
| `StockOverlap.ClosedStayIff` | app/engines/commerce.py:136-248 | over every interleaving, fulfilled and cancelled orders stay what they are if and only if no call succeeds on an order that was closed since the call read it |
| `StockOverlap.CancelledStillHolds` | app/engines/commerce.py:193-212 | a cancellation that overlaps the confirmation: the order is cancelled, all its reservations stay active, and cancelling again is refused |
| `StockOverlap.CancelledAfterFulfillment` | app/engines/commerce.py:193-248 | a cancellation that overlaps the fulfillment: every line has left the stock, and the order is cancelled |
| `StockOverlap.ConfirmAlone` | app/engines/commerce.py:136-172 | reading and confirming with nothing in between is the whole call |
| `StockOverlap.FulfillAlone` | app/engines/commerce.py:214-248 | so is reading and fulfilling |
| `StockOverlap.CancelAlone` | app/engines/commerce.py:193-212 | and reading and cancelling |
| `Stock.CancelReleasesAllIff` | app/engines/commerce.py:193-212 | cancelling leaves no active reservation of the order if and only if none of them had expired |
| `StockDesk.Service.CountOnHand` | app/engines/commerce.py:66-85 | the signed sum of the movement ledger |
| `StockDesk.Service.CountReserved` | app/engines/commerce.py:87-94 | the sum of the active reservations |
| `StockDesk.Service.ReceiveStock` | app/engines/inventory/production.py:118-139 | an incoming movement of a positive quantity |
| `StockDesk.Service.CreateDraftOrder` | app/engines/commerce.py:104-134 | a draft with its lines, or an error and no change |
| `StockDesk.Service.CheckStock` | app/engines/commerce.py:148-155 | true exactly when every item is available in full before anything is reserved |
| `StockDesk.Service.ConfirmOrder` | app/engines/commerce.py:136-172 | one active reservation per line, or no change |
| `StockDesk.Service.CancelOrder` | app/engines/commerce.py:193-212 | the order's unexpired reservations are released |
| `StockDesk.Service.FulfillOrder` | app/engines/commerce.py:214-248 | one outgoing movement per line and its reservation closed, or nothing at all |
| `StockDesk.Service.FulfillOneOrderLine` | app/engines/commerce.py:224-244 | one pass of the loop |
| `DeliveryMirror.NextMirrorsIff` | app/engines/fulfillment.py:54-89 | one step: from a state in which delivered fulfillments and shipments agree it keeps the agreement exactly when it does not mark a fulfillment delivered under an id used for something else |
| `DeliveryRuns.RowsStayUnique` | app/engines/logistics.py:47-110 | over every interleaving, with both halves of every call that commits half-way: replaying a shipment's events from ready gives its status through allowed moves only, no event id occurs twice, no number and no reference names two shipments, no shipment leaves without a number, and a fulfillment's shipment is the one placed for it |
| `DeliveryRuns.NextKeepsDesk` | app/engines/logistics.py:88-110 | every step keeps that, and what each call in flight relies on |
| `DeliveryRuns.NumbersAreFinal` | app/engines/logistics.py:75-86 | over every later interleaving no tracking number that was given changes, and no fulfillment's order, shipment or, past pending, method |
| `DeliveryRuns.OneActiveIff` | app/engines/fulfillment.py:42-89 | over every interleaving a seller order has at most one active fulfillment at all times if and only if no call, overtaken by one that closed its fulfillment, makes it active again beside another |
| `DeliveryRuns.NextKeepsOneIff` | app/engines/fulfillment.py:42-89 | the same for one step |
| `DeliveryRuns.ClosedStayIff` | app/engines/fulfillment.py:54-89 | over every interleaving no delivered, returned or cancelled fulfillment ever changes if and only if no call is overtaken by one that closed its fulfillment |
| `DeliveryRuns.AdvanceAlone` | app/engines/fulfillment.py:54-89 | both halves of a transition with nothing in between are the whole call |
| `DeliveryRuns.ShipAlone` | app/engines/fulfillment.py:105-122 | so are the two or three parts of placing a shipment |
| `DeliveryRuns.IngestAlone` | app/engines/carriers.py:69-99 | and both halves of taking in a carrier event |
| `DeliveryMirror.DeliveredIsDeliveredIff` | app/engines/fulfillment.py:54-89 | over every interleaving, delivered fulfillments that are not pickups have delivered shipments at all times if and only if none is marked delivered under an event id used for something else while its shipment has not been delivered |
| `DeliveryMirror.HonestIdsSuffice` | app/engines/fulfillment.py:54-89 | it is enough that every delivery begins under a new id, one of a delivery of that shipment, or after the delivery, whatever comes between its halves |
| `DeliveryInTurn.OneByOneStays` | app/engines/fulfillment.py:42-122 | when calls on a fulfillment do not overlap, there is one active fulfillment per order at all times and closed ones never change, everything else interleaved as it likes |
| `DeliveryInTurn.OvertakenReopens` | app/engines/fulfillment.py:54-89 | for any fulfillment on its way: a transition begins, the fulfillment is returned or cancelled, its order gets another, and the transition goes on; two fulfillments of the order are active |
| `DeliveryInTurn.ReopenedFromEmpty` | app/engines/fulfillment.py:42-122 | the same from empty tables |
| `DeliveryInTurn.DeliveredWithoutShipment` | app/engines/fulfillment.py:54-89 | from empty tables: the event id of one shipment's pickup, given again for the delivery of another fulfillment, leaves that fulfillment delivered and its shipment ready |
| `Delivery.MoveKeepsLog` | app/engines/logistics.py:88-110 | a move keeps every log a legal path to the status of its shipment, under distinct ids |
| `Delivery.DeliveredIsLast` | app/engines/logistics.py:19-28 | a delivery is the last event of a shipment |
| `DeliveryDesk.Service.EventIndex` | app/engines/logistics.py:92-93 | the first event with the id |
| `DeliveryDesk.Service.MoveShipment` | app/engines/logistics.py:88-110 | an allowed move with a new event id; a known id changes nothing |
| `DeliveryDesk.Service.Track` | app/engines/logistics.py:75-86 | the number is stored, unless it is empty, taken, already another one, or the shipment is finished |
| `DeliveryDesk.Service.NumberInUse` | app/engines/logistics.py:80-81 | true exactly when another shipment has the number |
| `DeliveryDesk.Service.ReferenceInUse` | app/engines/logistics.py:60-61 | true exactly when a shipment has the reference |
| `DeliveryDesk.Service.Place` | app/engines/logistics.py:47-73 | a ready shipment with a reference and a number of its own, or an error |
| `DeliveryDesk.Service.ActiveIndex` | app/engines/fulfillment.py:46-46 | the active fulfillment of the seller order, if any |
| `DeliveryDesk.Service.Create` | app/engines/fulfillment.py:42-52 | a pending fulfillment, the method of the pending one changed, or a refusal when one is under way |
| `DeliveryDesk.Service.CheckShipping` | app/engines/fulfillment.py:105-115 | the checks before a shipment is placed, in the order of the code |
| `DeliveryDesk.Service.PlaceOwn` | app/engines/fulfillment.py:116-121 | the shipment of the fulfillment, committed by itself |
| `DeliveryDesk.Service.LinkShipment` | app/engines/fulfillment.py:122-122 | the last write: the link, and ready unless the call found it ready |
| `DeliveryDesk.Service.StartAdvance` | app/engines/fulfillment.py:54-81 | the first half of a transition: the shipment moves, and a refusal there is a refusal here |
| `DeliveryDesk.Service.WriteFulfillment` | app/engines/fulfillment.py:82-86 | the second half: the status is written, whatever it has become |
| `DeliveryDesk.Service.StartIngest` | app/engines/carriers.py:69-90 | the first half of taking in a carrier event |
| `DeliveryDesk.Service.RecordEvent` | app/engines/carriers.py:91-99 | the event is recorded, once |
| `DeliveryDesk.Service.Ship` | app/engines/fulfillment.py:105-122 | all of the call when nothing comes between its commits: the shipment under the fulfillment's reference and its link, or the first failing check |
| `DeliveryDesk.Service.AdvanceFulfillment` | app/engines/fulfillment.py:54-89 | both halves when nothing comes between them; a transition that is not allowed is taken for a repeat when its event is the shipment's |
| `DeliveryDesk.Service.IngestEvent` | app/engines/carriers.py:69-99 | both halves when nothing comes between them: a signed event is applied once; a repeat must carry the same payload |
| `Workflow.ApplyKeepsInv` | app/engines/workflow.py:63-83 | applying an event keeps the instance invariant |
| `Workflow.RunKeepsInv` | app/engines/workflow.py:33-90 | so does every run |
| `Workflow.LogExplainsStep` | app/engines/workflow.py:63-83 | over every run, replaying an instance's log from its start step gives its current step, which is defined; task keys are unique and the current step has its task; no event id is in two logs |
| `Workflow.TerminalStays` | app/engines/workflow.py:63-90 | over every later run, completed and cancelled instances never move again, and an event id that was ever used changes nothing |
| `Workflow.Engine.CreateTask` | app/engines/workflow.py:56-61 | a task for the step, unless its key has one |
| `Workflow.Engine.Start` | app/engines/workflow.py:33-42 | a running instance at the start step, with its task |
| `Workflow.Engine.ApplyEvent` | app/engines/workflow.py:63-83 | the transition, its log entry and the next task, or no change |
| `Workflow.Engine.Cancel` | app/engines/workflow.py:85-90 | cancelled unless completed |
| `RateLimit.KeysAreIndependent` | app/core/rate_limit.py:11-19 | the bucket of a key depends on that key's own calls only |
| `RateLimit.StartsAreSpaced` | app/core/rate_limit.py:11-19 | bucket starts never go back and different buckets are at least a window apart, even when the times go back, as they may because the clock is read before the lock |
| `RateLimit.CountIsExact` | app/core/rate_limit.py:11-19 | the stored count is the number of calls of the bucket so far, whatever the times |
| `RateLimit.AcceptedPerBucket` | app/core/rate_limit.py:11-19 | each bucket accepts exactly min(calls, limit) of its calls, whatever the times |
| `RateLimit.SlidingBound` | app/core/rate_limit.py:11-19 | while times do not go back, any half-open interval of one window length holds at most 2*limit - 1 accepted calls of a key |
| `RateLimit.SlidingBoundIsTight` | app/core/rate_limit.py:11-19 | that bound is reached for every limit and every window |
| `RateLimit.RetryAfterSuffices` | app/core/rate_limit.py:18-18 | waiting exactly `retry_after` opens a new bucket if and only if the remaining time is at most a second or a whole number of seconds: it is rounded down |
| `RateLimit.Limiter.constructor` | app/core/rate_limit.py:7-9 | limit and window of at least 1, no bucket |
| `RateLimit.Limiter.Check` | app/core/rate_limit.py:11-19 | one bucket updated, and the verdict of that bucket |
| `RateLimit.Limiter.Reset` | app/core/rate_limit.py:21-22 | no bucket is left |
| `PaymentSession.DiscountKeepsInv` | app/engines/marketplace_completion.py:221-290 | discounting keeps the desk invariant, accepted or refused |
| `PaymentSession.OpenKeepsInv` | app/engines/marketplace.py:1294-1312 | opening a session keeps it, accepted or refused |
| `PaymentSession.CaptureKeepsInv` | app/engines/marketplace.py:1351-1384 | capturing keeps it: what is captured is what the orders cost |
| `PaymentSession.UnmovedTotals` | app/engines/marketplace.py:1314-1349 | the payment audit holds of an open session only while every order total is what the session allocated |
| `HusRuntime.PlansKeepInv` | app/hus/operational.py:10-24 | storing a plan and both halves of an activation keep the protocol invariant of the executions |
| `HusRuntime.ProposeKeepsInv` | app/ai/runtime.py:20-28 | proposing an action keeps it |
| `HusRuntime.BeginKeepsInv` | app/hus/runtime.py:132-147 | authorizing an attempt keeps it |
| `HusRuntime.VerifyKeepsInv` | app/hus/runtime.py:156-165 | verifying keeps it: a mutation goes on only with a licence |
| `HusRuntime.LookupKeepsInv` | app/hus/runtime.py:174-185 | the replay lookup keeps it |
| `HusRuntime.HandleKeepsInv` | app/hus/runtime.py:228-262 | running the handler keeps it |
| `HusRuntime.CrashKeepsInv` | app/hus/runtime.py:199-286 | a crash at any point keeps it |
| `SellerInvariant.RequestKeepsInv` | app/engines/marketplace.py:348-354 | requesting a return keeps the ledger invariant |
| `SellerInvariant.AdvanceKeepsInv` | app/engines/marketplace.py:384-407 | reviewing and advancing a return keep it |
| `Reconciliation.StepKeepsInv` | app/engines/payments.py:62-449 | every payment operation, accepted or refused, keeps the payment invariant |
| `Returns.NextKeepsInv` | app/engines/marketplace.py:356-447 | every item-return step, first or second half, keeps the return invariant and takes no request back |
| `ReturnDesk.Service.constructor` | app/engines/marketplace.py:356-360 | an order without returns |
| `ReturnDesk.Service.MarkLines` | app/engines/marketplace.py:390-391 | every line of the request and no other gets the status |
| `ReturnDesk.Service.SumLines` | app/engines/marketplace.py:416-418 | the amounts of the lines of the request |
| `LedgerDesk.Ledger.Recovered` | app/engines/marketplace.py:471-475 | the recoveries booked against a payout so far |
| `HusLexer.Lexer.LineEnd` | app/hus/lexer.py:38-43 | the distance to the end of the line or of the source |
| `Sorting.SortIgnoresOrder` | app/hus/compiler.py:100-101 | sorting by distinct keys gives one result for all arrangements of the same elements |
| `Sorting.SortedSetIgnoresOrder` | app/hus/compiler.py:93-93 | sorting a set of capabilities does not depend on how they were listed or repeated |
| `CompilerDesk.ValidateCapabilities` | app/hus/semantic.py:15-16 | one code per capability that the engine does not have |
| `CompilerDesk.DiagnoseWorkflow` | app/hus/compiler.py:61-82 | the diagnostics of one workflow against the codes seen before it |
| `CompilerDesk.ResolveDomains` | app/hus/compiler.py:91-93 | every domain with its defaults and its capabilities sorted |
| `CompilerDesk.ResolveWorkflows` | app/hus/compiler.py:94-96 | every workflow with its defaults |
| `Stock.ReceiveKeepsInv` | app/engines/inventory/production.py:118-139 | a receipt keeps the stock invariant |
| `Stock.DraftKeepsInv` | app/engines/commerce.py:104-134 | so does a draft |
| `StockDesk.Service.constructor` | app/engines/commerce.py:38-41 | the warehouses, without orders or movements |
| `StockDesk.Service.CountNeeded` | app/engines/commerce.py:148-151 | what the lines of an order need of an item |
| `DeliveryDesk.Service.constructor` | app/engines/logistics.py:32-33 | no shipment, no event, no fulfillment |
| `Workflow.BeginKeepsInv` | app/engines/workflow.py:33-42 | starting an instance keeps the instance invariant |
| `Workflow.CancelKeepsInv` | app/engines/workflow.py:85-90 | so does cancelling |
| `Workflow.Engine.constructor` | app/engines/workflow.py:16-18 | no instance, no event |
| `OrderDesk.Service.constructor` | app/engines/marketplace.py:952-977 | a book of stored orders, without a session |
| `Money.HalfUpTies` | app/engines/marketplace.py:47-48 | `_money` sends a tie up: an exact half between two units goes to the larger one |
| `Money.HalfEvenTies` | app/engines/marketplace_completion.py:19-20 | `money` sends a tie to the even unit |
| `CheckoutAmounts.GroupsCollectRows` | app/engines/marketplace.py:916-918 | each group holds all rows of its seller and currency in cart order, and every row has its group |
| `CheckoutAmounts.BookSellers` | app/engines/marketplace.py:933-978 | in every book that checkout returns, every seller of the cart has exactly one order |
| `CheckoutAmounts.BookCharges` | app/engines/marketplace.py:933-978 | in every book that checkout returns, every order is charged by its own rows, quote and rule: subtotal and line totals are nearest units with a tie going up, the fee is a nearest unit to subtotal times basis points over 10000 plus the fixed fee with a tie going up, both totals and the payout gross are subtotal plus shipping, and the payout net is that less the fee |
| `CheckoutAmounts.BookShares` | app/engines/marketplace.py:964-976 | each line carries its proportion of the fee and the shipping of its order, to half a unit, or (n-1)/2 on the last line; without any value the last line carries all |
| `DiscountShares.AllocationIsSpread` | app/engines/marketplace_completion.py:237-300 | every item of an accepted request either repeats a row and changes nothing, or lowers the totals by its amount and the payout net by the seller-funded part, and each allocation by its proportion of that part by line total: to half a unit with a tie to even, or (n-1)/2 units on the last line |
| `DiscountShares.OtherOrdersKept` | app/engines/marketplace_completion.py:237-300 | an order that no item names keeps its row, allocations, payout and discounts |
| `DiscountShares.ItemsAcceptedIff` | app/engines/marketplace_completion.py:237-284 | the loop goes through if and only if no order is named twice and every item adds up and has room in the book as it was before the request |
| `DiscountShares.AllocateIff` | app/engines/marketplace_completion.py:221-300 | a request is accepted if and only if the order waits for payment, the currency is its own, no order is named twice, every item adds up and has room, and the amounts are within the customer subtotal |
| `SessionCalls.OpensIff` | app/engines/marketplace.py:1294-1349 | a session opens if and only if there are orders, all of the customer currency and each with something to pay; it names the provider and asks for the customer total, split into the order totals in their order |
| `SessionCalls.CapturesAs` | app/engines/marketplace.py:1351-1384 | a first capture marks the session with the given provider id and the order as paid, and changes nothing else of either |
| `SessionCalls.SessionStays` | app/engines/marketplace.py:1294-1384 | over every run, a session keeps its provider, amount and allocations; its provider id is the one of a capture call and final |
| `RefundBooking.BookingTakes` | app/engines/marketplace.py:434-491 | when a call first books a refund, the account of a paid payout falls by the smaller of the amount and what is left of the net after earlier recoveries; an eligible payout gives up the amount from net and balance, or all of its net; no other account, payout or total moves |
| `RefundBooking.StepMoney` | app/engines/marketplace.py:434-491 | whatever the operation, the amounts of a payout and what was recovered for it change only when a refund is booked on it |
| `RefundBooking.RecoveredIsBooked` | app/engines/marketplace.py:471-481 | over every run of whole calls, the recoveries of a payout are the sum of the refunds booked on it since it was paid, or its net if they come to more |
| `RefundBooking.NetIsLeft` | app/engines/marketplace.py:459-470 | over every run of whole calls, the net of a payout is its net at checkout less the refunds booked while it was open, and never below zero |
| `RefundBooking.BalanceFromRefunds` | app/engines/marketplace.py:1525-1558 | over every run of whole calls, an account stands at the nets of its credited unpaid payouts less, for each paid one, the refunds booked since it was paid up to its net |
| `RefundCalls.CreateRefundIff` | app/engines/payments.py:280-304 | a refund is created if and only if its payment is captured and not yet refunded, the reference is new, and the amount is positive and fits what completed refunds leave of the payment |
| `RefundCalls.ApproveIff` | app/engines/marketplace.py:409-432 | a return is granted a refund if and only if it is inspected, its order is paid and the refund can be created; the return then names it |
| `RefundCalls.RefundedMore` | app/engines/payments.py:323-323 | completing an open refund adds its amount to what has been refunded of its own order |
| `RefundCalls.PaymentRefundIff` | app/engines/payments.py:306-327 | an open refund is completed if and only if the provider id is given and free; the payment counts as refunded from then on exactly when the completed refunds add up to it; the same id again changes nothing |
| `OrderLife.OrderCallIff` | app/engines/marketplace.py:1420-1459 | a call on an order is accepted if and only if its status, dispute and proofs admit a move, and the order then has the status of that move; no other order changes |
| `OrderLife.OrderMoves` | app/engines/marketplace.py:434-503 | whatever the operation, an order keeps its account and total, and its status moves only by a call on it or by a booked refund: to refunded once the payment is, to partially refunded before |
| `OrderLife.PayoutLife` | app/engines/marketplace.py:1437-1644 | whatever the operation, a payout moves from held to eligible, in process and paid, or is reversed before it is in process; every move has its licence (delivery with a settlement, verified settlement of a completed order, an unblocked request or payment by the seller, a cancellation before payment, a refund of at least the gross) |
| `PayoutCalls.RequestPayoutIff` | app/engines/marketplace.py:1572-1593 | a payout is requested if and only if it is eligible, its order is not blocked, and the gates let it through |
| `PayoutCalls.PayoutPaidIff` | app/engines/marketplace.py:1595-1644 | a payout in process is paid if and only if its order is not blocked, it has its payment and settlement, the bank reference is new, its net is positive and within the balance, and no refund has touched it; one debit of the net is written |
| `PayoutCalls.DeliveryFrees` | app/engines/marketplace.py:1437-1449 | delivery makes a held payout eligible exactly when its payment was settled before, and writes no entry |
| `PayoutCalls.SettleOrderIff` | app/engines/marketplace.py:1461-1491 | the payment of an order is settled if and only if the order is under way and paid, the settlement is verified, and the audit can pass for its payout; a held payout of a completed order is credited with its net, and no other balance moves |
| `PayoutGate.ReleasedHasReason` | app/engines/marketplace.py:1437-1491 | over every run of whole calls, behind a completed order and behind a payout that is eligible, in process or paid there is a delivery, or a dispute dismissed before any |
| `PayoutGate.CompletedIsDeliveredIff` | app/engines/marketplace.py:494-503 | over every run of whole calls, an order counts as completed only after its delivery if and only if no dispute about it was dismissed before the delivery |
| `PayoutGate.UndeliveredIsPaid` | app/engines/marketplace.py:494-503 | from whatever checkout leaves: captured, disputed, dismissed, settled, requested and paid, the payout of an order that was never delivered is paid |
| `ReturnCalls.RequestIff` | app/engines/marketplace.py:356-382 | an item return is accepted if and only if the order is delivered, the items name different lines, and each quantity is within what is not in an active return; it has one line an item, in order, for the rounded value of what comes back |
| `ReturnCalls.AddsLinesIff` | app/engines/marketplace.py:362-378 | the loop over the items accepts exactly such items |
| `FeaturedOffer.ScoreMeans` | app/engines/marketplace.py:703-709 | the score is a nearest one to half the price score, a quarter of the delivery points, a tenth of the stock and 15 hundredths of the rating, and the price score is a nearest one to the place between the dearest and the cheapest offer |
| `PaymentCalls.CallIff` | app/engines/payments.py:87-206 | processing, attaching, provider events and captures: the call is accepted if and only if the gates pass, the provider id is free or its own, and the status admits the move; exactly that payment gets the status and the id of the call |
| `PaymentCalls.OtherCalls` | app/engines/payments.py:114-140 | a call about an unknown payment is refused, a repeated provider event is accepted, and neither changes anything |
| `PaymentCalls.CreateIff` | app/engines/payments.py:62-85 | a payment is created if and only if its terms are complete, its reference is new and its market admits it; it is pending and has no provider id |
| `PaymentCalls.StatusHistory` | app/engines/payments.py:62-206 | over every run, a payment has the terms that a call created it with, and the status that the last accepted call about it asked for, or pending if none did |
| `PaymentCalls.SettleIff` | app/engines/payments.py:208-278 | a payment is settled if and only if it is captured, amount and currency are its own, it has a market that admits it, and neither it nor the reference has another settlement; the same call again changes nothing |
| `PaymentCalls.SettlesAs` | app/engines/payments.py:208-278 | the new settlement has the terms of its payment, and is reconciled exactly when a closed run of its provider, market and currency lists the payment |
| `PaymentCalls.CloseIff` | app/engines/payments.py:423-449 | a run is closed if and only if all of its items matched; the settlements it lists of its provider and market are reconciled under its name, and nothing else changes |
| `PaymentCalls.SettledIsCaptured` | app/engines/payments.py:208-278 | over every run, every settlement is of a payment that has been captured, with its amount, currency and provider |
| `StatementRuns.BookedRun` | app/engines/payments.py:329-421 | a new statement books a run with its own particulars: one item a row with the class that the row deserves, in order, then one missing item for every overdue payment in the order of the references, and counters that say so |
| `StatementRuns.StatementBookedIff` | app/engines/payments.py:329-421 | a statement under a new reference is booked if and only if it is complete, its source is new, it has rows, every row has reference, amount and currency and is about no payment without a market, and no two items of the run would share a provider reference |
| `StatementRuns.ResubmittedIff` | app/engines/payments.py:340-350 | a statement under a known reference is accepted if and only if it is the same source, and changes nothing |
| `StatementRuns.SourcesAreDistinct` | app/engines/payments.py:329-421 | over every run, no two reconciliation runs share a reference, nor a provider, source and digest |
| `RuntimeTrace.EffectsAreRecords` | app/hus/runtime.py:149-286 | in every interleaving the committed effects are the finished records, each once and in the order of the commits, and every record was written by an execution of exactly its context |
| `RuntimeTrace.WasBegun` | app/hus/runtime.py:132-147 | in every interleaving every execution was begun by one call, on a plan that was active in its tenant then, for a registered action of one of its steps; a mutation named an approval and is idempotent |
| `RuntimeTrace.WasVouched` | app/hus/approval.py:16-78 | in every interleaving every mutation that passed the check had, at that time, an approved action of its tenant, run and tool, bound to its step, plan, key and arguments, by an administrator with an identity of their own |
| `RuntimeTrace.EffectHasHistory` | app/hus/runtime.py:132-286 | in every interleaving, behind every committed mutation there is one execution of exactly its context, with such a beginning and such a check |
| `RuntimeTrace.RecordWasHandled` | app/hus/runtime.py:228-286 | in every interleaving every record says what the handler call of its own execution returned, or that no handler was registered then |
| `RuntimeTrace.ProposeIsPending` | app/ai/runtime.py:20-28 | a mutation proposed for a run of one's own is pending |
| `RuntimeTrace.ApprovedActionRuns` | app/ai/runtime.py:30-59 | an approval by a signed-in administrator is enough: the execution of that step with those arguments and that key runs its handler and commits exactly what was approved |
| `RuntimeApproval.WasProposed` | app/ai/runtime.py:20-28 | in every interleaving every action was proposed by the actor of its run, with the tool, risk and arguments that it still has |
| `RuntimeApproval.WasApproved` | app/ai/runtime.py:30-59 | in every interleaving every approved mutation was approved while it was pending, for a step of a plan of its tenant that was active then and has its tool, and its binding names that step, the hash of that plan, the key and the arguments |
| `RuntimeApproval.EffectWasApproved` | app/ai/runtime.py:30-59 | in every interleaving, behind every committed mutation there is one such approval, given before it was checked, for its own tenant, plan, step, action, key and arguments |
| `HusLexemes.LexemeIff` | app/hus/lexer.py:33-66 | the lexer finds a token at the head of a text if and only if the text starts with a spelling of it and with no longer spelling of any token; spellings are given by a grammar of their own: punctuation, numbers without leading zeros, names and the 17 keywords, strings with escapes |
| `HusLexemes.SpelledOutLexes` | app/hus/lexer.py:33-66 | tokens that are spelled out and set apart by spaces lex to these tokens and the end |
| `HusText.SpelledOutParses` | app/hus/parser.py:48-120 | the text that spells out the tokens of any complete source of the grammar parses to the tree that the source stands for |
| `HusReading.SourceRead` | app/hus/parser.py:48-120 | the parser accepts a written source if and only if it is complete, and then its tree is the one that the grammar gives it: declarations by kind and steps in order, every field the last value after its key |
| `HusWriting.AcceptedIsWritten` | app/hus/parser.py:48-120 | every token sequence of the lexer that the parser accepts starts with a source that the grammar writes, and its tree is the one that this source stands for |
| `HusRoundTrip.TextParsesIff` | app/hus/parser.py:48-120 | a lexed text parses if and only if its tokens start with a complete source of the grammar, and its tree is, places apart, the one that this source stands for |
| `HusRoundTrip.RoundTrip` | app/hus/parser.py:48-120 | every tree with non-empty names and proper metadata, written as tokens declaration by declaration, parses to itself, places apart |
| `HusRoundTrip.ParsedRoundTrip` | app/hus/parser.py:48-120 | so does every tree that a text parses to |
| `HusRoundTrip.WrittenTree` | app/hus/parser.py:48-120 | the written source of a tree is complete and stands for that tree |
| `HusSpans.TextIsPlaced` | app/hus/parser.py:22-22 | in the tree of a text every declaration spans exactly its own tokens, and domains, workflows, steps, policies and metadata follow one another in the order of the text |
| `HusIdentity.CanonicalSameIff` | app/hus/lowering.py:20-30 | two trees have the same canonical tree if and only if they have the same structure: domains and workflows in their order, capabilities and policy values in any, and the last policy or metadata entry of each name |
| `HusMeaning.PlanMeans` | app/hus/planner.py:31-63 | the plan of a compiled tree holds exactly the declared workflows in code order with their steps in order: id, action, dependency on the step before, approval if and only if it is declared or the action is not a read, idempotency if and only if it is not a read, and the constant timeout and retries |
| `HusMeaning.MutationsAreGuarded` | app/hus/planner.py:51-55 | no step of a compiled plan that is not a read goes without approval and idempotency |
| `HusMeaning.PlanCapabilities` | app/hus/planner.py:56-62 | the plan lists exactly the capabilities that its declared steps name |
| `HusMeaning.ContractMeans` | app/hus/compiler.py:88-141 | the contract of a compiled tree holds exactly the declared domains and workflows in code order, with their own fields and defaults, and an execution plan with the same steps |
| `HusMeaning.ContractBinds` | app/hus/compiler.py:106-110 | a contract binds a capability to a domain if and only if the tree declares an enabled domain with it |
| `HusMeaning.ContractKeeps` | app/hus/compiler.py:88-141 | policies and metadata of a contract are the last declarations of each name |
| `HusMeaning.ActionIsNamed` | app/hus/planner.py:18-20 | an action with a dot is split at its first dot into engine and capability |
| `StockCalls.ReceiveIff` | app/engines/inventory/production.py:118-139 | a receipt adds its quantity to the stock of its item and warehouse and to no other |
| `StockCalls.DraftIff` | app/engines/commerce.py:104-134 | a draft has the given lines in order and reserves nothing; it needs lines, positive quantities and a known warehouse |
| `StockCalls.ConfirmIff` | app/engines/commerce.py:136-172 | a draft is confirmed if and only if it has lines and its warehouse may go negative or has, reservations set aside, all that the order needs of every item |
| `StockCalls.ConfirmsAs` | app/engines/commerce.py:156-172 | confirming adds one active reservation a line, in order, of its item and quantity in its warehouse, for 30 minutes, links it to the line, and changes nothing else |
| `StockCalls.CancelsAs` | app/engines/commerce.py:193-212 | cancelling releases exactly the active reservations of a confirmed order that have not expired |
| `StockCalls.FulfillsAs` | app/engines/commerce.py:214-248 | fulfilling writes one outgoing movement a line, in order, of its item and quantity, and marks exactly the reservations of the lines |
| `StockBalance.FulfillIff` | app/engines/commerce.py:214-248 | a confirmed order is fulfilled if and only if the ledger of its warehouse has all that the order needs of its items |
| `StockBalance.StockAddsUp` | app/engines/commerce.py:66-86 | over every run of whole calls, the stock of every item and warehouse is what has arrived less the lines of the fulfilled orders |
| `StockBalance.OrdersHoldTheirLines` | app/engines/commerce.py:87-94 | over every run of whole calls, what is reserved is held by the orders: a confirmed one holds exactly its lines, a cancelled one at most that, and drafts and fulfilled ones nothing |
| `DeliveryCalls.CameAllTheWay` | app/engines/logistics.py:20-30 | a delivered shipment has been picked up, in transit and out for delivery, and one that failed or was returned has been picked up, each with an event of its own |
| `DeliveryCalls.MoveIff` | app/engines/logistics.py:88-110 | a shipment is moved if and only if the event is new, the step may follow and nothing travels without a number; a used event id is accepted and changes nothing |
| `DeliveryCalls.TrackIff` | app/engines/logistics.py:75-86 | a number is given if and only if the shipment is not closed, has none or this one, and no other has it |
| `DeliveryCalls.CreateIff` | app/engines/fulfillment.py:42-52 | an order gets a pending fulfillment if and only if it is ready and has no active one past pending; a pending one only changes its method |
| `DeliveryCalls.ShipIff` | app/engines/fulfillment.py:105-122 | a fulfillment is shipped if and only if it is an assigned or ready delivery of a fulfilled sale with address and routing, and reference and number are free; it gets one ready shipment under its own reference |
| `DeliveryCalls.AdvanceIff` | app/engines/fulfillment.py:54-89 | a fulfillment advances if and only if its step may follow with what it needs and, on the road, its shipment moves along; then both have the new status; a repeated event of its own shipment is accepted and changes nothing |
| `DeliveryCalls.IngestIff` | app/engines/carriers.py:69-99 | a carrier event is taken in if and only if it is signed and new with a status that moves the shipment, or was recorded with the same payload; it is recorded once |
| `DeliveryHistory.ShipmentsCameAllTheWay` | app/engines/logistics.py:88-110 | over every interleaving, every shipment has come to its status by way of the stations before it, and has a number once it has left |
| `DeliveryHistory.CarriersAreDistinct` | app/engines/carriers.py:69-99 | over every interleaving, a carrier event is recorded once |
| `DeliveryHistory.StepsMayFollow` | app/engines/fulfillment.py:54-89 | when calls on a fulfillment do not overlap, a fulfillment starts pending and every status change of it is one of the transition table |

## Left out

- Money.HalfUpIsNearest: ratios are exact rationals, so the 28 digits of the decimal context are not modelled.
- Checkout.CheckoutSucceedsIff: stock, address, payment-method and idempotency-record checks before the grouping are not modelled; the fee rule of each seller is an input.
- PaymentSession.CapturableIff: provider and registry gates of an intent are one boolean per allocation.
- LedgerDesk.Ledger.CapturePayment: an order is captured at most once, by its session; `attach_payment_intent` and `sync_payment` are not part of the model.
- LedgerDesk.Ledger.Settle: that the settlement is reconciled and matches the order, and that the order audit passes, are booleans; both are proved in their own modules.
- LedgerDesk.Ledger.MarkPayoutPaid: payout destination, provider gate and order audit are booleans.
- LedgerDesk.Ledger.RequestReturn: whole-order returns only; item returns are in `Returns`, without the payout side.
- ReturnRefunds.RefundsStayWithin: whole-order returns record no lines and are outside the bound; the payment engine's own limit is a boolean.
- Reconciliation.IntentLife: refunds change a payment here only through webhooks; `create_refund` and `complete_refund` are in `SellerLedger`.
- HusActivation.OneActivePlanIff: isolation is read committed, the default; that a stored plan has a fresh id is a guard of the model.
- SellerBalance.PaidIsFinal: for runs of whole calls; a cancellation that overlaps the payment can overwrite a paid payout (`LedgerOverlap.LateCancelBreaks`).
- RefundRetry.NeverRefunded: `advance_return` can also move an approved refund by hand, which the run excludes for that return; calls are whole.
- HusRuntime.EffectsAreLicensed: identity and membership of the approver count at verification time only; they may be withdrawn before the commit.
- HusContract.AcceptedIff: each field of a specification is absent, malformed or of its type; other mixtures of JSON kinds, the text of diagnostics and the error for a non-object are left out.
- HusPlanner.BuiltIr: the capability list of the plan is a set, so its order is not modelled; timeouts, retries and the plan hash are constants of the source.
- HusLexer.LexTokenizes: decoding the inside of a string literal is a parameter.
- HusText.SpelledOutParses: that a string can be spelled is an assumption on that parameter; the spellings are given.
- HusIdentity.CanonicalSameIff: the canonical tree is a value here, not its JSON text.
- OrderLife.OrderCallIff: a dispute is open or closed; the state under investigation, which no call sets, is not modelled.
- ParserDesk.Parser.ParseTokens: the token that a parse error carries is not modelled, only the error.
- HusFrontEnd.LayoutDoesNotMatter: for sources that lex; hashes are taken as injective functions of what they hash.
- StockOverlap.NeverOversold: of the inventory service only incoming movements are modelled, without their reference; its own issues, transfers and reservations, reservation expiry and `extend_reservations` are not part of the model.
- DeliveryDesk.Service.AdvanceFulfillment: the seller order is a boolean gate, and its own status is not modelled; four delivery methods are reduced to pickup or not.
- DeliveryDesk.Service.Ship: what the commerce order and the address say are inputs.
- DeliveryDesk.Service.IngestEvent: the signature check is a boolean and the payload hash an opaque string.
- Workflow.LogExplainsStep: event payloads and contexts are left out, and registering a definition is a parameter.
- FeaturedOffer.Featured: the offers that qualify, their stock and ratings are inputs.
- CheckoutInputs.CheckoutIff: a query sees what its own transaction has written; API sessions are made with autoflush off (`app/core/db/session.py:16`), and then the line queries of checkout and `confirm` and the total in `complete_refund` (`app/engines/payments.py:323`) do not see unflushed rows.
- PaymentSession.CaptureConservesMoney: operations on one customer order are taken one at a time; discounting locks that order, capturing its session.
- SettlementOverlap.AlwaysReconciledIff: a statement is booked in one step, although the rows it reads are not locked.
- LedgerOverlap.AlwaysOwedIff: the calls that commit once are steps, with the rows that they read unlocked taken as they are at the commit; isolation is read committed, the default.
- DeliveryRuns.OneActiveIff: the second commit of a transition, which only refreshes the customer's view, is not modelled.
- SQL sessions, outbox events, traces and timestamps: tables are sequences or maps.
- Tenants are modelled one at a time, except in the HUS runtime and the seller ledger.
- Journal postings of the clearing account, because `post_journal` is not part of this model.
- COD collection, packages, carrier registration and secrets: no property beyond their guards.
- The Redis rate limiter, AI intelligence, catalog, shipping rates, seller onboarding, coupons, reviews and incident records: they would only add easy members.
- HTTP routes, OIDC, JWT, the user interface and migrations other than the constraints cited above.
