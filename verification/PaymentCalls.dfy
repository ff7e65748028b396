/** Which calls the payment service accepts and what each one changes, over single calls and over every run. */
module PaymentCalls {
  import opened Outcomes
  import opened Payments
  import opened Reconciliation

  // ---------------------------------------------------------------- calls about one payment

  predicate Named(op: Op, reference: string) {
    (op.OpProcessing? || op.OpAttach? || op.OpCapture? || op.OpWebhook?) && op.reference == reference
  }

  /** The status that the call asks for. */
  function Asked(op: Op): Option<IntentStatus> {
    match op
    case OpProcessing(_) => Some(Processing)
    case OpCapture(_, _) => Some(Captured)
    case OpWebhook(_, _, _, _, _, status, _) => status
    case _ => None
  }

  /** The provider id that the call brings. */
  function Brought(op: Op): Option<string> {
    match op
    case OpAttach(_, id, _) => Some(id)
    case OpWebhook(_, _, _, _, id, _, _) => if id == "" then None else Some(id)
    case _ => None
  }

  predicate Repeated(st: State, op: Op) { op.OpWebhook? && (op.provider, op.event) in st.events }

  /** The payment with what the call says about it. */
  function Told(p: Intent, op: Op): Intent {
    p.(status := if Asked(op).Some? then Asked(op).value else p.status,
       providerId := if Brought(op).Some? then Brought(op) else p.providerId)
  }

  /** The call may ask this of the payment: the moves of `StatusMove`, less Processing to Captured for a provider event
      and Authorized for the others, and any status but Pending once more by a provider event. */
  predicate MayAsk(p: Intent, op: Op) {
    match op
    case OpProcessing(_) => p.status == Pending
    case OpCapture(_, _) => (p.status == Processing || p.status == Authorized) && p.providerId.Some?
    case OpWebhook(_, _, _, _, id, Some(s), _) =>
      && s != Pending
      && (s == p.status || (StatusMove(p.status, s) && !(p.status == Processing && s == Captured)))
      && (s == Authorized || s == Captured ==> id != "" || p.providerId.Some?)
    case _ => true
  }

  /** The payment has this id or none, and no other payment of its provider has it. */
  ghost predicate MayBring(intents: seq<Intent>, p: Intent, op: Op) {
    match Brought(op)
    case None => true
    case Some(id) =>
      && (p.providerId == None || p.providerId == Some(id))
      && forall q :: q in intents && Carries(q, p.provider, id) ==> q == p
  }

  predicate Passes(p: Intent, op: Op) {
    match op
    case OpProcessing(_) => true
    case OpAttach(_, id, allowed) => id != "" && (p.market.None? || allowed)
    case OpCapture(_, allowed) => p.market.None? || allowed
    case OpWebhook(provider, event, kind, reference, _, _, allowed) =>
      && provider != "" && event != "" && kind != "" && reference != ""
      && provider == p.provider && (p.market.None? || allowed)
    case _ => false
  }

  lemma FoundIs(intents: seq<Intent>, j: nat)
    requires IntentsInv(intents) && j < |intents|
    ensures FindIntent(intents, intents[j].reference) == j
  {
    var k := FindIntent(intents, intents[j].reference);
    hide FindIntent, SameIdentity;
    assert k < |intents|;
    assert k == j;
  }

  lemma ConflictIff(intents: seq<Intent>, j: nat, id: string)
    requires IntentsInv(intents) && j < |intents|
    ensures !Conflict(intents, j, intents[j].provider, id) <==>
              forall q :: q in intents && Carries(q, intents[j].provider, id) ==> q == intents[j]
  {
    hide SameIdentity;
    var p := intents[j];
    if Conflict(intents, j, p.provider, id) {
      var i :| 0 <= i < |intents| && i != j && Carries(intents[i], p.provider, id);
      assert intents[i] in intents && intents[i].reference != p.reference;
    }
  }

  /** Main result: which calls about a payment are accepted, and what they change. */
  lemma CallIff(st: State, op: Op, j: nat)
    requires IntentsInv(st.intents) && j < |st.intents| && Named(op, st.intents[j].reference) && !Repeated(st, op)
    ensures var p := st.intents[j];
            && (Perform(st, op).Ok? <==> Passes(p, op) && MayBring(st.intents, p, op) && MayAsk(p, op))
            && (Perform(st, op).Ok? ==>
                  Perform(st, op).value
                  == st.(intents := st.intents[j := Told(p, op)],
                         events := if op.OpWebhook? then st.events + {(op.provider, op.event)} else st.events))
  {
    FoundIs(st.intents, j);
    if Brought(op).Some? { ConflictIff(st.intents, j, Brought(op).value); }
    hide IntentsInv, Conflict, FindIntent, CreateIntent, Settle, Reconcile, Close;
    match op
    case OpWebhook(provider, event, kind, reference, id, status, allowed) => EventIff(st, op, j);
    case _ =>
  }

  lemma EventIff(st: State, op: Op, j: nat)
    requires op.OpWebhook? && j < |st.intents| && op.reference == st.intents[j].reference && !Repeated(st, op)
    requires FindIntent(st.intents, op.reference) == j
    requires op.providerId != "" ==>
               (!Conflict(st.intents, j, st.intents[j].provider, op.providerId) <==>
                forall q :: q in st.intents && Carries(q, st.intents[j].provider, op.providerId) ==> q == st.intents[j])
    ensures var p := st.intents[j];
            && (Perform(st, op).Ok? <==> Passes(p, op) && MayBring(st.intents, p, op) && MayAsk(p, op))
            && (Perform(st, op).Ok? ==>
                  Perform(st, op).value
                  == st.(intents := st.intents[j := Told(p, op)], events := st.events + {(op.provider, op.event)}))
  {
    hide Conflict, FindIntent;
    var p := st.intents[j];
    var q := if op.providerId == "" then p else p.(providerId := Some(op.providerId));
    var first := SetIntent(st, j, q);
    assert first.intents[j] == q && (q == p ==> first.intents == st.intents);
    if op.status.Some? {
      assert first.intents[j := q.(status := op.status.value)] == st.intents[j := Told(p, op)];
    }
  }

  /** A call about no payment there is, and an event that was seen before, change nothing; the event is accepted. */
  lemma OtherCalls(st: State, op: Op, reference: string)
    requires Named(op, reference)
    requires Repeated(st, op) || forall p :: p in st.intents ==> p.reference != reference
    ensures Step(st, op) == st
    ensures Perform(st, op).Ok? <==> Repeated(st, op) && op.provider != "" && op.event != "" && op.kind != ""
                                     && op.reference != ""
  {
    var k := FindIntent(st.intents, reference);
    assert forall i :: 0 <= i < |st.intents| ==> st.intents[i] in st.intents;
    hide FindIntent, Conflict, Settle, Reconcile, Close, WithProviderId, WithStatus;
  }

  /** A new payment is pending and has no provider id; references are given once. */
  lemma CreateIff(st: State, reference: string, provider: string, amount: int, currency: string, market: Option<int>,
                  allowed: bool)
    ensures var after := CreateIntent(st, reference, provider, amount, currency, market, allowed);
            && (after.Ok? <==>
                  && reference != "" && provider != "" && currency != "" && amount > 0 && (market.None? || allowed)
                  && forall p :: p in st.intents ==> p.reference != reference)
            && (after.Ok? ==>
                  && |after.value.intents| == |st.intents| + 1
                  && after.value == st.(intents := st.intents + [after.value.intents[|st.intents|]])
                  && var p := after.value.intents[|st.intents|];
                     && (p.reference, p.provider, p.amount, p.currency, p.market)
                        == (reference, provider, amount, currency, market)
                     && p.status == Pending && p.providerId == None)
  {
    var k := FindIntent(st.intents, reference);
    assert forall i :: 0 <= i < |st.intents| ==> st.intents[i] in st.intents;
    hide FindIntent;
  }

  // ---------------------------------------------------------------- the history of a payment

  /** The call is accepted here and asks a status of the payment. */
  predicate Moves(st: State, op: Op, reference: string) {
    Named(op, reference) && Asked(op).Some? && !Repeated(st, op) && Perform(st, op).Ok?
  }

  /** The call at n of the run moved the payment. */
  predicate Moved(ops: seq<Op>, n: nat, reference: string) {
    n < |ops| && Moves(Run(EMPTY, ops[..n]), ops[n], reference)
  }

  /** The last call of the run that moved the payment asked for this status; a payment that none moved is pending. */
  ghost predicate LastAsked(ops: seq<Op>, reference: string, status: IntentStatus) {
    || (status == Pending && forall n :: 0 <= n < |ops| ==> !Moved(ops, n, reference))
    || exists n :: 0 <= n < |ops| && Moved(ops, n, reference) && Asked(ops[n]) == Some(status)
                   && forall i :: n < i < |ops| ==> !Moved(ops, i, reference)
  }

  predicate Creates(op: Op, p: Intent) {
    op.OpCreate? && (op.reference, op.provider, op.amount, op.currency, op.market)
                    == (p.reference, p.provider, p.amount, p.currency, p.market)
  }

  ghost predicate Known(intents: seq<Intent>, reference: string) {
    exists p :: p in intents && p.reference == reference
  }

  /** Where a payment of the new state comes from: the same payment before, with what the call asked, or the call. */
  lemma StepOf(st: State, op: Op, p: Intent) returns (q: Option<Intent>)
    requires IntentsInv(st.intents) && p in Step(st, op).intents
    ensures q.Some? ==>
              && q.value in st.intents && SameContract(q.value, p)
              && p.status == if Moves(st, op, p.reference) then Asked(op).value else q.value.status
    ensures q.None? ==> Creates(op, p) && p.status == Pending && !Known(st.intents, p.reference)
  {
    hide *;
    q := Some(p);
    SameTerms(p, p);
    if Perform(st, op).Err? {
      StepIs(st, op);
      Refuses(st, op, p.reference);
    } else if op.OpCreate? {
      NotNamed(st, op, p.reference);
      q := CreatedOf(st, op, p);
    } else if op.OpSettle? || op.OpReconcile? || op.OpClose? {
      NotNamed(st, op, p.reference);
      StepIs(st, op);
      IntentsUntouched(st, op);
    } else {
      q := NamedOf(st, op, p);
    }
  }

  lemma StepIs(st: State, op: Op)
    ensures Step(st, op) == if Perform(st, op).Ok? then Perform(st, op).value else st
  {
    hide Perform;
  }

  lemma SameTerms(p: Intent, q: Intent)
    requires p == q
    ensures SameContract(p, q)
  {
  }

  lemma Refuses(st: State, op: Op, reference: string)
    requires Perform(st, op).Err?
    ensures !Moves(st, op, reference)
  {
    hide Perform;
  }

  lemma NotNamed(st: State, op: Op, reference: string)
    requires op.OpCreate? || op.OpSettle? || op.OpReconcile? || op.OpClose?
    ensures !Moves(st, op, reference)
  {
    hide Perform;
  }

  lemma CreatedOf(st: State, op: Op, p: Intent) returns (q: Option<Intent>)
    requires op.OpCreate? && Perform(st, op).Ok? && p in Step(st, op).intents
    ensures q.Some? ==> q.value == p && p in st.intents && SameContract(p, p)
    ensures q.None? ==> Creates(op, p) && p.status == Pending && !Known(st.intents, p.reference)
  {
    hide CreateIntent;
    CreateIff(st, op.reference, op.provider, op.amount, op.currency, op.market, op.allowed);
    q := if p in st.intents then Some(p) else None;
  }

  lemma NamedOf(st: State, op: Op, p: Intent) returns (q: Option<Intent>)
    requires op.OpProcessing? || op.OpAttach? || op.OpCapture? || op.OpWebhook?
    requires IntentsInv(st.intents) && Perform(st, op).Ok? && p in Step(st, op).intents
    ensures q.Some? && q.value in st.intents && SameContract(q.value, p)
    ensures p.status == if Moves(st, op, p.reference) then Asked(op).value else q.value.status
  {
    hide Perform;
    if Repeated(st, op) || !Known(st.intents, op.reference) {
      OtherCalls(st, op, op.reference);
      assert Known(st.intents, p.reference);
      return Some(p);
    }
    var j :| 0 <= j < |st.intents| && st.intents[j].reference == op.reference;
    CallIff(st, op, j);
    var i :| 0 <= i < |Step(st, op).intents| && Step(st, op).intents[i] == p;
    q := Some(st.intents[i]);
  }

  // ---------------------------------------------------------------- over every run

  lemma MovesKnown(st: State, op: Op, reference: string)
    requires Moves(st, op, reference)
    ensures Known(st.intents, reference)
  {
    hide Perform;
    if !Known(st.intents, reference) { OtherCalls(st, op, reference); }
  }

  lemma StepKeepsKnown(st: State, op: Op, reference: string)
    requires Known(st.intents, reference)
    ensures Known(Step(st, op).intents, reference)
  {
    hide Perform, Step;
    var k :| 0 <= k < |st.intents| && st.intents[k].reference == reference;
    IntentLife(st, op, k);
    assert Step(st, op).intents[k] in Step(st, op).intents;
  }

  lemma {:induction false} MovedKnown(ops: seq<Op>, n: nat, reference: string)
    requires Moved(ops, n, reference)
    ensures Known(Run(EMPTY, ops).intents, reference)
  {
    var init := ops[..|ops| - 1];
    hide Known, Step, Moves;
    if n < |init| {
      assert init[..n] == ops[..n];
      MovedKnown(init, n, reference);
    } else {
      MovesKnown(Run(EMPTY, init), ops[n], reference);
    }
    StepKeepsKnown(Run(EMPTY, init), ops[|ops| - 1], reference);
  }

  /** Main result, over every run: a payment has the terms that some call created it with, and the status that the last
      accepted call about it asked for. */
  lemma {:induction false} StatusHistory(ops: seq<Op>, p: Intent)
    requires p in Run(EMPTY, ops).intents
    ensures exists op :: op in ops && Creates(op, p)
    ensures LastAsked(ops, p.reference, p.status)
  {
    hide Step, IntentsInv, CoreInv, Moves, Creates, LastAsked, SameContract, NonePending;
    if ops != [] {
      var init, last := ops[..|ops| - 1], ops[|ops| - 1];
      var st := Run(EMPTY, init);
      RunKeepsInv(init);
      InvIntents(st);
      var q := StepOf(st, last, p);
      if q.Some? {
        StatusHistory(init, q.value);
        var op :| op in init && Creates(op, q.value);
        SameCreation(op, q.value, p);
        SameReference(q.value, p);
        AskedStep(ops, p.reference, q.value.status, p.status);
      } else {
        NewReference(ops, last, p);
      }
    }
  }

  lemma SameCreation(op: Op, q: Intent, p: Intent)
    requires Creates(op, q) && SameContract(q, p)
    ensures Creates(op, p)
  {
  }

  lemma SameReference(q: Intent, p: Intent)
    requires SameContract(q, p)
    ensures q.reference == p.reference
  {
  }

  lemma AskedStep(ops: seq<Op>, reference: string, before: IntentStatus, after: IntentStatus)
    requires ops != [] && LastAsked(ops[..|ops| - 1], reference, before)
    requires var st, last := Run(EMPTY, ops[..|ops| - 1]), ops[|ops| - 1];
             after == if Moves(st, last, reference) then Asked(last).value else before
    ensures LastAsked(ops, reference, after)
  {
    hide Run, Asked, Perform, Named, Repeated;
    var n := |ops| - 1;
    var init := ops[..n];
    forall i | 0 <= i < n ensures Moved(ops, i, reference) <==> Moved(init, i, reference) {
      assert init[..i] == ops[..i];
    }
    if Moves(Run(EMPTY, init), ops[n], reference) {
      assert Moved(ops, n, reference);
    } else if before != Pending || exists i :: 0 <= i < n && Moved(init, i, reference) {
      var i :| 0 <= i < n && Moved(init, i, reference) && Asked(init[i]) == Some(before)
               && forall j :: i < j < |init| ==> !Moved(init, j, reference);
      assert Moved(ops, i, reference);
    }
  }

  lemma NewReference(ops: seq<Op>, last: Op, p: Intent)
    requires ops != [] && last == ops[|ops| - 1] && Creates(last, p) && p.status == Pending
    requires !Known(Run(EMPTY, ops[..|ops| - 1]).intents, p.reference)
    ensures LastAsked(ops, p.reference, p.status)
  {
    var n := |ops| - 1;
    var init := ops[..n];
    hide Known, Run, Perform;
    forall i | 0 <= i < |ops| ensures !Moved(ops, i, p.reference) {
      if i < n {
        assert init[..i] == ops[..i];
        if Moved(init, i, p.reference) { MovedKnown(init, i, p.reference); }
      }
    }
  }

  // ---------------------------------------------------------------- settling and closing

  /** A settlement of exactly the payment, by its own provider. */
  predicate Pays(s: Settlement, p: Intent, reference: string) {
    s.reference == reference && s.payment == p.reference && s.amount == p.amount && s.currency == p.currency
    && s.provider == p.provider
  }

  lemma SettlementFound(st: State, i: nat)
    requires CoreInv(st) && i < |st.settlements|
    ensures FindSettlement(st.settlements, st.settlements[i].reference) == i
  {
    hide IntentsInv, RunInv, SettlementInv, FindSettlement;
    var j := FindSettlement(st.settlements, st.settlements[i].reference);
    assert j < |st.settlements|;
    assert j == i;
  }

  lemma NoSettlement(settlements: seq<Settlement>, reference: string)
    requires forall s :: s in settlements ==> s.reference != reference
    ensures FindSettlement(settlements, reference) == |settlements|
  {
    var j := FindSettlement(settlements, reference);
    hide FindSettlement;
    assert forall i :: 0 <= i < |settlements| ==> settlements[i] in settlements;
  }

  /** Main result: a captured payment is settled for exactly its amount, once; the same call again is accepted and
      changes nothing. */
  lemma SettleIff(st: State, j: nat, reference: string, amount: int, currency: string, allowed: bool)
    requires CoreInv(st) && j < |st.intents|
    ensures var p, after := st.intents[j], Settle(st, st.intents[j].reference, reference, amount, currency, allowed);
            && (after.Ok? <==>
                  && p.status == Captured && amount == p.amount && currency == p.currency && p.market.Some? && allowed
                  && ((exists s :: s in st.settlements && Pays(s, p, reference))
                      || forall s :: s in st.settlements ==> s.reference != reference && s.payment != p.reference))
            && ((exists s :: s in st.settlements && s.payment == p.reference) && after.Ok? ==> after.value == st)
  {
    InvIntents(st);
    FoundIs(st.intents, j);
    var p := st.intents[j];
    hide IntentsInv, FindIntent, NewSettlement, FindSettlement, RunInv, SettlementInv;
    if s :| s in st.settlements && s.reference == reference {
      var i :| 0 <= i < |st.settlements| && st.settlements[i] == s;
      SettlementFound(st, i);
      hide CoreInv;
      SettleKnown(st, j, i, amount, currency, allowed);
    } else {
      NoSettlement(st.settlements, reference);
    }
  }

  lemma SettleKnown(st: State, j: nat, i: nat, amount: int, currency: string, allowed: bool)
    requires j < |st.intents| && FindIntent(st.intents, st.intents[j].reference) == j
    requires i < |st.settlements| && FindSettlement(st.settlements, st.settlements[i].reference) == i
    requires forall s :: s in st.settlements && s.reference == st.settlements[i].reference ==> s == st.settlements[i]
    ensures var p, s := st.intents[j], st.settlements[i];
            var after := Settle(st, p.reference, s.reference, amount, currency, allowed);
            && (after.Ok? <==> p.status == Captured && amount == p.amount && currency == p.currency && p.market.Some?
                               && allowed && Pays(s, p, s.reference))
            && (after.Ok? ==> after.value == st)
  {
    hide FindIntent, FindSettlement, NewSettlement;
  }

  /** The settlement that a first call books has the payment's own terms, and is reconciled exactly when a closed run
      lists the payment already. */
  lemma SettlesAs(st: State, j: nat, reference: string, amount: int, currency: string)
    requires CoreInv(st) && j < |st.intents| && !Settled(st.settlements, st.intents[j].reference)
    requires Settle(st, st.intents[j].reference, reference, amount, currency, true).Ok?
    ensures var p, after := st.intents[j], Settle(st, st.intents[j].reference, reference, amount, currency, true).value;
            && |after.settlements| == |st.settlements| + 1 && p.market.Some?
            && var s := after.settlements[|st.settlements|];
               && after == st.(settlements := st.settlements + [s])
               && Pays(s, p, reference) && s.market == p.market.value && (s.reconciled <==> Proved(st.runs, s))
  {
    InvIntents(st);
    FoundIs(st.intents, j);
    assert st.intents[j] in st.intents;
    hide IntentsInv, CoreInv, FindIntent, RunInv, SettlementInv, FindSettlement, Proved;
    NewSettlementInv(st.intents, st.runs, st.intents[j], reference);
  }

  /** Main result: a run is closed once all of its items matched; the settlements that it lists of its own provider and
      market are reconciled under its name, and nothing else changes. */
  lemma CloseIff(st: State, k: nat)
    requires CoreInv(st) && k < |st.runs|
    ensures var run := st.runs[k]; var after := Close(st, run.reference);
            && (after.Ok? <==> run.status == Closed || (run.status == AllMatched && run.exceptions == 0))
            && (run.status == Closed ==> after == Ok(st))
            && (after.Ok? && run.status != Closed ==>
                  && |after.value.settlements| == |st.settlements|
                  && after.value == st.(runs := st.runs[k := run.(status := Closed)],
                                        settlements := after.value.settlements)
                  && forall n :: 0 <= n < |st.settlements| ==>
                       var s, t := st.settlements[n], after.value.settlements[n];
                       if s.provider == run.provider && s.market == run.market
                          && (exists i :: i in run.items && i.class_ == Matched && i.internal == Some(s.payment)) then
                         t == s.(reconciled := true, run := Some(run.reference))
                       else t == s)
  {
    RunFound(st, k);
    hide CoreInv, FindRun;
  }

  lemma RunFound(st: State, k: nat)
    requires CoreInv(st) && k < |st.runs|
    ensures FindRun(st.runs, st.runs[k].reference) == k
  {
    hide IntentsInv, RunInv, SettlementInv, FindRun;
    var j := FindRun(st.runs, st.runs[k].reference);
    assert j < |st.runs|;
    assert j == k;
  }

  /** Every settlement has its payment, and the payment has been captured. */
  ghost predicate SettledCaptured(st: State) {
    forall s :: s in st.settlements ==>
      exists k :: 0 <= k < |st.intents| && Pays(s, st.intents[k], s.reference)
                  && (st.intents[k].status == Captured || st.intents[k].status == Refunded)
  }

  lemma StepKeepsCaptured(st: State, op: Op)
    requires CoreInv(st) && SettledCaptured(st)
    ensures SettledCaptured(Step(st, op))
  {
    var after := Step(st, op);
    hide CoreInv, Step;
    forall s | s in after.settlements
      ensures exists k :: 0 <= k < |after.intents| && Pays(s, after.intents[k], s.reference)
                          && (after.intents[k].status == Captured || after.intents[k].status == Refunded)
    {
      var k := BehindOf(st, op, s);
      IntentLife(st, op, k);
    }
  }

  /** The captured payment behind a settlement of the new state. */
  lemma BehindOf(st: State, op: Op, s: Settlement) returns (k: nat)
    requires CoreInv(st) && SettledCaptured(st) && s in Step(st, op).settlements
    ensures k < |st.intents| && Pays(s, st.intents[k], s.reference)
    ensures st.intents[k].status == Captured || st.intents[k].status == Refunded
  {
    hide CoreInv, CreateIntent, MarkProcessing, Attach, Webhook, Capture, Reconcile, Close, Settle;
    if op.OpSettle? && Perform(st, op).Ok? && s !in st.settlements {
      hide Pays;
      k := FindIntent(st.intents, op.reference);
      FirstSettled(st, op.reference, op.settlement, op.amount, op.currency, op.allowed, s);
    } else {
      var t := OldSettlement(st, op, s);
      hide Step;
      k :| 0 <= k < |st.intents| && Pays(t, st.intents[k], t.reference)
           && (st.intents[k].status == Captured || st.intents[k].status == Refunded);
    }
  }

  lemma FirstSettled(st: State, payment: string, reference: string, amount: int, currency: string, allowed: bool,
                     s: Settlement)
    requires Settle(st, payment, reference, amount, currency, allowed).Ok? && s !in st.settlements
    requires s in Settle(st, payment, reference, amount, currency, allowed).value.settlements
    ensures var k := FindIntent(st.intents, payment);
            k < |st.intents| && st.intents[k].status == Captured && Pays(s, st.intents[k], s.reference)
  {
    hide FindIntent, FindSettlement, FirstProof, Settled;
  }

  lemma OldSettlement(st: State, op: Op, s: Settlement) returns (t: Settlement)
    requires s in Step(st, op).settlements && (op.OpSettle? && Perform(st, op).Ok? ==> s in st.settlements)
    ensures t in st.settlements && s == t.(reconciled := s.reconciled, run := s.run)
  {
    hide CreateIntent, MarkProcessing, Attach, Webhook, Capture, Reconcile, Settle, FindRun, Close;
    if Perform(st, op).Err? || op.OpSettle? {
      t := s;
    } else if op.OpClose? {
      t := MarkedOf(st, op.run, s);
    } else {
      SettlementsUntouched(st, op);
      t := s;
    }
  }

  lemma MarkedOf(st: State, reference: string, s: Settlement) returns (t: Settlement)
    requires Close(st, reference).Ok? && s in Close(st, reference).value.settlements
    ensures t in st.settlements && s == t.(reconciled := s.reconciled, run := s.run)
  {
    hide FindRun, Lists;
    var after := Close(st, reference).value;
    var n :| 0 <= n < |after.settlements| && after.settlements[n] == s;
    t := st.settlements[n];
  }

  lemma SettlementsUntouched(st: State, op: Op)
    requires !op.OpSettle? && !op.OpClose? && Perform(st, op).Ok?
    ensures Perform(st, op).value.settlements == st.settlements
  {
    hide TallyRows, HasDuplicates, UniqueProviderRefs, MissingItems, Unresolved, FindIntent, Conflict, FindRun;
  }

  /** Over every run: what is settled has been captured. */
  lemma {:induction false} SettledIsCaptured(ops: seq<Op>)
    ensures SettledCaptured(Run(EMPTY, ops))
  {
    hide Step, CoreInv, NonePending;
    if ops != [] {
      SettledIsCaptured(ops[..|ops| - 1]);
      RunKeepsInv(ops[..|ops| - 1]);
      StepKeepsCaptured(Run(EMPTY, ops[..|ops| - 1]), ops[|ops| - 1]);
    }
  }
}
