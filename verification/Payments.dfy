/** Payment intents, settlements and statement reconciliation of one tenant.

    The registry and provider gates come in as the boolean `allowed` of an operation. */
module Payments {
  import opened Outcomes
  import opened Sorting

  datatype IntentStatus = Pending | Processing | Authorized | Captured | Failed | Cancelled | Refunded

  datatype Intent = Intent(
    reference: string, provider: string, amount: int, currency: string, market: Option<int>,
    status: IntentStatus, providerId: Option<string>)

  /** A settled settlement; `run` names the closed run that reconciled it. */
  datatype Settlement = Settlement(
    reference: string, payment: string, provider: string, market: int, amount: int, currency: string,
    reconciled: bool, run: Option<string>)

  datatype Class = Matched | MissingInternal | MissingInProvider | AmountMismatch | CurrencyMismatch | DuplicateProvider

  datatype Item = Item(
    providerRef: string, internal: Option<string>, expected: Option<int>, actual: int, currency: string, class_: Class)

  datatype RunStatus = AllMatched | Exceptions | Closed

  datatype Recon = Recon(
    reference: string, provider: string, market: int, currency: string, source: string, sha: string,
    status: RunStatus, total: nat, matched: nat, exceptions: nat, items: seq<Item>)

  datatype State = State(
    intents: seq<Intent>, events: set<(string, string)>, settlements: seq<Settlement>, runs: seq<Recon>)

  datatype Row = Row(ref: string, actual: int, currency: string)

  datatype Error =
    | BadArguments
    | Duplicate
    | NotFound
    | Blocked
    | WrongState
    | ProviderIdFixed
    | ProviderIdTaken
    | ProviderMismatch
    | Unsupported
    | NotVerified
    | AmountMismatchError
    | NoMarket
    | OtherSettlement
    | AlreadySettled
    | OtherSource
    | EmptyStatement
    | BadRow
    | UnresolvedExceptions
    | ConstraintViolation

  // ---------------------------------------------------------------- look-ups

  /** The index of the intent with this reference, or the length. */
  function FindIntent(intents: seq<Intent>, reference: string): (k: nat)
    ensures k <= |intents|
    ensures k < |intents| ==> intents[k].reference == reference
    ensures k == |intents| ==> forall j :: 0 <= j < |intents| ==> intents[j].reference != reference
  {
    if intents == [] then 0
    else if intents[0].reference == reference then 0
    else 1 + FindIntent(intents[1..], reference)
  }

  predicate Carries(p: Intent, provider: string, providerId: string) {
    p.provider == provider && p.providerId == Some(providerId)
  }

  function FindProvided(intents: seq<Intent>, provider: string, providerId: string): (k: nat)
    ensures k <= |intents|
    ensures k < |intents| ==> Carries(intents[k], provider, providerId)
    ensures k == |intents| ==> forall j :: 0 <= j < |intents| ==> !Carries(intents[j], provider, providerId)
  {
    if intents == [] then 0
    else if Carries(intents[0], provider, providerId) then 0
    else 1 + FindProvided(intents[1..], provider, providerId)
  }

  function FindSettlement(settlements: seq<Settlement>, reference: string): (k: nat)
    ensures k <= |settlements|
    ensures k < |settlements| ==> settlements[k].reference == reference
    ensures k == |settlements| ==> forall j :: 0 <= j < |settlements| ==> settlements[j].reference != reference
  {
    if settlements == [] then 0
    else if settlements[0].reference == reference then 0
    else 1 + FindSettlement(settlements[1..], reference)
  }

  function FindRun(runs: seq<Recon>, reference: string): (k: nat)
    ensures k <= |runs|
    ensures k < |runs| ==> runs[k].reference == reference
    ensures k == |runs| ==> forall j :: 0 <= j < |runs| ==> runs[j].reference != reference
  {
    if runs == [] then 0
    else if runs[0].reference == reference then 0
    else 1 + FindRun(runs[1..], reference)
  }

  /** Another intent of the provider has the id. */
  predicate Conflict(intents: seq<Intent>, k: nat, provider: string, providerId: string) {
    exists j :: 0 <= j < |intents| && j != k && Carries(intents[j], provider, providerId)
  }

  // ---------------------------------------------------------------- intents

  function CreateIntent(st: State, reference: string, provider: string, amount: int, currency: string,
                        market: Option<int>, allowed: bool): Result<State, Error>
  {
    if reference == "" || provider == "" || currency == "" || amount <= 0 then Err(BadArguments)
    else if FindIntent(st.intents, reference) < |st.intents| then Err(Duplicate)
    else if market.Some? && !allowed then Err(Blocked)
    else Ok(st.(intents := st.intents + [Intent(reference, provider, amount, currency, market, Pending, None)]))
  }

  function SetIntent(st: State, k: nat, p: Intent): State
    requires k < |st.intents|
  {
    st.(intents := st.intents[k := p])
  }

  function MarkProcessing(st: State, reference: string): Result<State, Error> {
    var k := FindIntent(st.intents, reference);
    if k == |st.intents| then Err(NotFound)
    else if st.intents[k].status != Pending then Err(WrongState)
    else Ok(SetIntent(st, k, st.intents[k].(status := Processing)))
  }

  /** A provider payment id is given once, and to one payment of a provider. */
  function WithProviderId(st: State, k: nat, provider: string, providerId: string): Result<State, Error>
    requires k < |st.intents|
  {
    var p := st.intents[k];
    if p.providerId.Some? && p.providerId != Some(providerId) then Err(ProviderIdFixed)
    else if Conflict(st.intents, k, provider, providerId) then Err(ProviderIdTaken)
    else Ok(SetIntent(st, k, p.(providerId := Some(providerId))))
  }

  function Attach(st: State, reference: string, providerId: string, allowed: bool): Result<State, Error> {
    var k := FindIntent(st.intents, reference);
    if providerId == "" then Err(BadArguments)
    else if k == |st.intents| then Err(NotFound)
    else if st.intents[k].market.Some? && !allowed then Err(Blocked)
    else WithProviderId(st, k, st.intents[k].provider, providerId)
  }

  predicate Transition(from: IntentStatus, to: IntentStatus) {
    match from
    case Pending => to in {Processing, Authorized, Failed, Cancelled}
    case Processing => to in {Processing, Authorized, Failed, Cancelled}
    case Authorized => to in {Authorized, Captured, Failed, Cancelled}
    case Captured => to in {Captured, Refunded}
    case Failed => to == Failed
    case Cancelled => to == Cancelled
    case Refunded => to == Refunded
  }

  function WithStatus(st: State, k: nat, status: Option<IntentStatus>): Result<State, Error>
    requires k < |st.intents|
  {
    if status.None? then Ok(st)
    else if status == Some(Pending) then Err(Unsupported)
    else if !Transition(st.intents[k].status, status.value) then Err(WrongState)
    else if status.value in {Authorized, Captured} && st.intents[k].providerId.None? then Err(NotVerified)
    else Ok(SetIntent(st, k, st.intents[k].(status := status.value)))
  }

  /** `process_webhook`: a repeated event changes nothing. */
  function Webhook(st: State, provider: string, event: string, kind: string, reference: string,
                   providerId: string, status: Option<IntentStatus>, allowed: bool): Result<State, Error> {
    if provider == "" || event == "" || kind == "" || reference == "" then Err(BadArguments)
    else if (provider, event) in st.events then Ok(st)
    else
      var k := FindIntent(st.intents, reference);
      if k == |st.intents| then Err(NotFound)
      else if st.intents[k].provider != provider then Err(ProviderMismatch)
      else if st.intents[k].market.Some? && !allowed then Err(Blocked)
      else
        var first :- if providerId == "" then Ok(st) else WithProviderId(st, k, provider, providerId);
        var second :- WithStatus(first, k, status);
        Ok(second.(events := second.events + {(provider, event)}))
  }

  /** `capture_verified`. */
  function Capture(st: State, reference: string, allowed: bool): Result<State, Error> {
    var k := FindIntent(st.intents, reference);
    if k == |st.intents| then Err(NotFound)
    else if st.intents[k].status !in {Authorized, Processing} then Err(WrongState)
    else if st.intents[k].market.Some? && !allowed then Err(Blocked)
    else if st.intents[k].providerId.None? then Err(NotVerified)
    else Ok(SetIntent(st, k, st.intents[k].(status := Captured)))
  }

  // ---------------------------------------------------------------- settlement

  /** The items list the payment as matched. */
  predicate Listed(items: seq<Item>, payment: string) {
    exists i :: i in items && i.class_ == Matched && i.internal == Some(payment)
  }

  predicate Lists(run: Recon, payment: string) { Listed(run.items, payment) }

  /** A closed run of the same provider, market and currency lists the payment. */
  predicate Proves(run: Recon, provider: string, market: int, currency: string, payment: string) {
    && run.status == Closed && run.provider == provider && run.market == market && run.currency == currency
    && Lists(run, payment)
  }

  function FirstProof(runs: seq<Recon>, provider: string, market: int, currency: string, payment: string): (k: nat)
    ensures k <= |runs|
    ensures k < |runs| ==> Proves(runs[k], provider, market, currency, payment)
    ensures forall j :: 0 <= j < k ==> !Proves(runs[j], provider, market, currency, payment)
  {
    if runs == [] then 0
    else if Proves(runs[0], provider, market, currency, payment) then 0
    else 1 + FirstProof(runs[1..], provider, market, currency, payment)
  }

  predicate Settled(settlements: seq<Settlement>, payment: string) {
    exists s :: s in settlements && s.payment == payment
  }

  function Settle(st: State, payment: string, reference: string, amount: int, currency: string,
                  allowed: bool): Result<State, Error>
  {
    var k := FindIntent(st.intents, payment);
    if k == |st.intents| then Err(NotFound)
    else
      var p := st.intents[k];
      if p.status != Captured then Err(WrongState)
      else if amount != p.amount || currency != p.currency then Err(AmountMismatchError)
      else if p.market.None? then Err(NoMarket)
      else if !allowed then Err(Blocked)
      else
        var j := FindSettlement(st.settlements, reference);
        if j < |st.settlements| then
          var s := st.settlements[j];
          if s.payment == payment && s.amount == amount && s.currency == currency && s.provider == p.provider then
            Ok(st)
          else Err(OtherSettlement)
        else if Settled(st.settlements, payment) then Err(AlreadySettled)
        else Ok(st.(settlements := st.settlements + [NewSettlement(st.runs, p, reference)]))
  }

  /** Reconciled at once when a closed run already lists the payment. */
  function NewSettlement(runs: seq<Recon>, p: Intent, reference: string): Settlement
    requires p.market.Some?
  {
    var r := FirstProof(runs, p.provider, p.market.value, p.currency, p.reference);
    Settlement(reference, p.reference, p.provider, p.market.value, p.amount, p.currency,
               r < |runs|, if r < |runs| then Some(runs[r].reference) else None)
  }

  // ---------------------------------------------------------------- statements

  datatype Statement = Statement(
    provider: string, market: int, currency: string, reference: string, source: string, sha: string,
    rows: seq<Row>, expected: seq<string>)

  predicate HasDuplicates(rows: seq<Row>) {
    exists i, j :: 0 <= i < j < |rows| && rows[i].ref == rows[j].ref
  }

  /** The payment a row belongs to, unless it is another market's. */
  function Resolve(intents: seq<Intent>, m: Statement, row: Row): Result<Option<Intent>, Error> {
    if row.actual <= 0 || row.currency == "" then Err(BadRow)
    else
      var k := FindProvided(intents, m.provider, row.ref);
      if k == |intents| then Ok(None)
      else if intents[k].market.None? then Err(NoMarket)
      else if intents[k].market.value != m.market then Ok(None)
      else Ok(Some(intents[k]))
  }

  function Classify(m: Statement, row: Row, p: Option<Intent>, seen: set<string>): Class {
    if p.Some? && p.value.reference in seen then DuplicateProvider
    else if p.None? then MissingInternal
    else if row.currency != m.currency then CurrencyMismatch
    else if row.currency != p.value.currency then CurrencyMismatch
    else if row.actual != p.value.amount then AmountMismatch
    else Matched
  }

  function ItemFor(m: Statement, row: Row, p: Option<Intent>, seen: set<string>): Item {
    Item(row.ref, if p.Some? then Some(p.value.reference) else None, if p.Some? then Some(p.value.amount) else None,
         row.actual, row.currency, Classify(m, row, p, seen))
  }

  datatype Tally = Tally(items: seq<Item>, seen: set<string>, matched: nat, exceptions: nat)

  function AddItem(t: Tally, i: Item): Tally {
    Tally(t.items + [i], if i.internal.Some? then t.seen + {i.internal.value} else t.seen,
          if i.class_ == Matched then t.matched + 1 else t.matched,
          if i.class_ == Matched then t.exceptions else t.exceptions + 1)
  }

  /** The first n rows of the statement. */
  function TallyRows(intents: seq<Intent>, m: Statement, n: nat): Result<Tally, Error>
    requires n <= |m.rows|
  {
    if n == 0 then Ok(Tally([], {}, 0, 0))
    else
      var t :- TallyRows(intents, m, n - 1);
      var p :- Resolve(intents, m, m.rows[n - 1]);
      Ok(AddItem(t, ItemFor(m, m.rows[n - 1], p, t.seen)))
  }

  /** The expected references that no row resolved to, in order. */
  function Unresolved(expected: seq<string>, seen: set<string>): seq<string> {
    SortedSet(NotIn(expected, seen))
  }

  function NotIn(s: seq<string>, seen: set<string>): (r: seq<string>)
    ensures forall x :: x in r <==> x in s && x !in seen
  {
    if s == [] then []
    else
      assert s == s[..|s| - 1] + [s[|s| - 1]];
      if s[|s| - 1] in seen then NotIn(s[..|s| - 1], seen) else NotIn(s[..|s| - 1], seen) + [s[|s| - 1]]
  }

  /** The expected payment exists with this provider. */
  predicate Awaited(intents: seq<Intent>, m: Statement, reference: string) {
    var k := FindIntent(intents, reference);
    k < |intents| && intents[k].provider == m.provider
  }

  function MissingItem(p: Intent): Item {
    Item("__MISSING__:" + p.reference, Some(p.reference), Some(p.amount), 0, p.currency, MissingInProvider)
  }

  function MissingItems(intents: seq<Intent>, m: Statement, missing: seq<string>): seq<Item> {
    if missing == [] then []
    else
      var init, x := MissingItems(intents, m, missing[..|missing| - 1]), missing[|missing| - 1];
      if Awaited(intents, m, x) then init + [MissingItem(intents[FindIntent(intents, x)])] else init
  }

  predicate UniqueProviderRefs(items: seq<Item>) {
    forall i, j :: 0 <= i < j < |items| ==> items[i].providerRef != items[j].providerRef
  }

  predicate SameSource(run: Recon, m: Statement) {
    run.provider == m.provider && run.source == m.source && run.sha == m.sha
  }

  predicate BadStatement(m: Statement) {
    m.provider == "" || m.market == 0 || m.currency == "" || m.reference == "" || m.source == "" || |m.sha| != 64
  }

  /** `reconcile_batch`. */
  function Reconcile(st: State, m: Statement, allowed: bool): Result<State, Error> {
    var k := FindRun(st.runs, m.reference);
    if BadStatement(m) then Err(BadArguments)
    else if k < |st.runs| then if SameSource(st.runs[k], m) then Ok(st) else Err(OtherSource)
    else if !allowed then Err(Blocked)
    else if m.rows == [] then Err(EmptyStatement)
    else if exists r :: r in m.rows && r.ref == "" then Err(BadRow)
    else if HasDuplicates(m.rows) then Err(Duplicate)
    else if exists r :: r in st.runs && SameSource(r, m) then Err(ConstraintViolation)
    else
      var t :- TallyRows(st.intents, m, |m.rows|);
      var missing := Unresolved(m.expected, t.seen);
      var extra := MissingItems(st.intents, m, missing);
      if !UniqueProviderRefs(t.items + extra) then Err(ConstraintViolation)
      else Ok(st.(runs := st.runs + [Booked(m, t, |missing|, extra)]))
  }

  function Booked(m: Statement, t: Tally, missing: nat, extra: seq<Item>): Recon {
    var exceptions := t.exceptions + |extra|;
    Recon(m.reference, m.provider, m.market, m.currency, m.source, m.sha,
          if exceptions == 0 then AllMatched else Exceptions,
          |m.rows| + missing, t.matched, exceptions, t.items + extra)
  }

  function Mark(s: Settlement, run: Recon): Settlement {
    if s.provider == run.provider && s.market == run.market && Lists(run, s.payment) then
      s.(reconciled := true, run := Some(run.reference))
    else s
  }

  function MarkAll(settlements: seq<Settlement>, run: Recon): (r: seq<Settlement>)
    ensures |r| == |settlements| && forall k :: 0 <= k < |r| ==> r[k] == Mark(settlements[k], run)
  {
    seq(|settlements|, k requires 0 <= k < |settlements| => Mark(settlements[k], run))
  }

  /** `close_reconciliation_run`. */
  function Close(st: State, reference: string): Result<State, Error> {
    var k := FindRun(st.runs, reference);
    if k == |st.runs| then Err(NotFound)
    else if st.runs[k].status == Closed then Ok(st)
    else if st.runs[k].exceptions != 0 || st.runs[k].status != AllMatched then Err(UnresolvedExceptions)
    else
      var run := st.runs[k].(status := Closed);
      Ok(st.(runs := st.runs[k := run], settlements := MarkAll(st.settlements, run)))
  }

  // ---------------------------------------------------------------- runs of the service

  datatype Op =
    | OpCreate(reference: string, provider: string, amount: int, currency: string, market: Option<int>, allowed: bool)
    | OpProcessing(reference: string)
    | OpAttach(reference: string, providerId: string, allowed: bool)
    | OpWebhook(provider: string, event: string, kind: string, reference: string, providerId: string,
                status: Option<IntentStatus>, allowed: bool)
    | OpCapture(reference: string, allowed: bool)
    | OpSettle(reference: string, settlement: string, amount: int, currency: string, allowed: bool)
    | OpReconcile(m: Statement, allowed: bool)
    | OpClose(run: string)

  function Perform(st: State, op: Op): Result<State, Error> {
    match op
    case OpCreate(reference, provider, amount, currency, market, allowed) =>
      CreateIntent(st, reference, provider, amount, currency, market, allowed)
    case OpProcessing(reference) => MarkProcessing(st, reference)
    case OpAttach(reference, providerId, allowed) => Attach(st, reference, providerId, allowed)
    case OpWebhook(provider, event, kind, reference, providerId, status, allowed) =>
      Webhook(st, provider, event, kind, reference, providerId, status, allowed)
    case OpCapture(reference, allowed) => Capture(st, reference, allowed)
    case OpSettle(reference, settlement, amount, currency, allowed) =>
      Settle(st, reference, settlement, amount, currency, allowed)
    case OpReconcile(m, allowed) => Reconcile(st, m, allowed)
    case OpClose(run) => Close(st, run)
  }

  function Step(st: State, op: Op): State {
    match Perform(st, op)
    case Ok(after) => after
    case Err(_) => st
  }

  function Run(st: State, ops: seq<Op>): State {
    if ops == [] then st else Step(Run(st, ops[..|ops| - 1]), ops[|ops| - 1])
  }

  const EMPTY := State([], {}, [], [])
}
