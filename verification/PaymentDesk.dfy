/** The payment service, with its tables as fields that are updated in place. */
module PaymentDesk {
  import opened Outcomes
  import opened Payments
  import opened Sorting

  class Service {
    var intents: seq<Intent>
    var events: set<(string, string)>
    var settlements: seq<Settlement>
    var runs: seq<Recon>

    constructor ()
      ensures Snapshot() == EMPTY
    {
      intents, events, settlements, runs := [], {}, [], [];
    }

    function Snapshot(): State
      reads this
    {
      State(intents, events, settlements, runs)
    }

    method CreateIntent(reference: string, provider: string, amount: int, currency: string, market: Option<int>,
                        allowed: bool)
      returns (r: Result<State, Error>)
      modifies this
      ensures r == old(Payments.CreateIntent(Snapshot(), reference, provider, amount, currency, market, allowed))
      ensures Snapshot() == old(Step(Snapshot(), OpCreate(reference, provider, amount, currency, market, allowed)))
    {
      if reference == "" || provider == "" || currency == "" || amount <= 0 { return Err(BadArguments); }
      if FindIntent(intents, reference) < |intents| { return Err(Duplicate); }
      if market.Some? && !allowed { return Err(Blocked); }
      intents := intents + [Intent(reference, provider, amount, currency, market, Pending, None)];
      r := Ok(Snapshot());
    }

    method MarkProcessing(reference: string) returns (r: Result<State, Error>)
      modifies this
      ensures r == old(Payments.MarkProcessing(Snapshot(), reference))
      ensures Snapshot() == old(Step(Snapshot(), OpProcessing(reference)))
    {
      var k := FindIntent(intents, reference);
      if k == |intents| { return Err(NotFound); }
      if intents[k].status != Pending { return Err(WrongState); }
      intents := intents[k := intents[k].(status := Processing)];
      r := Ok(Snapshot());
    }

    method AttachProviderPayment(reference: string, providerId: string, allowed: bool) returns (r: Result<State, Error>)
      modifies this
      ensures r == old(Attach(Snapshot(), reference, providerId, allowed))
      ensures Snapshot() == old(Step(Snapshot(), OpAttach(reference, providerId, allowed)))
    {
      if providerId == "" { return Err(BadArguments); }
      var k := FindIntent(intents, reference);
      if k == |intents| { return Err(NotFound); }
      var p := intents[k];
      if p.market.Some? && !allowed { return Err(Blocked); }
      if p.providerId.Some? && p.providerId != Some(providerId) { return Err(ProviderIdFixed); }
      if Conflict(intents, k, p.provider, providerId) { return Err(ProviderIdTaken); }
      intents := intents[k := p.(providerId := Some(providerId))];
      r := Ok(Snapshot());
    }

    /** The provider's event: its payment id and its status, or nothing at all. */
    method ProcessWebhook(provider: string, event: string, kind: string, reference: string, providerId: string,
                          status: Option<IntentStatus>, allowed: bool)
      returns (r: Result<State, Error>)
      modifies this
      ensures r == old(Webhook(Snapshot(), provider, event, kind, reference, providerId, status, allowed))
      ensures Snapshot()
              == old(Step(Snapshot(), OpWebhook(provider, event, kind, reference, providerId, status, allowed)))
    {
      if provider == "" || event == "" || kind == "" || reference == "" { return Err(BadArguments); }
      if (provider, event) in events { return Ok(Snapshot()); }
      var k := FindIntent(intents, reference);
      if k == |intents| { return Err(NotFound); }
      if intents[k].provider != provider { return Err(ProviderMismatch); }
      if intents[k].market.Some? && !allowed { return Err(Blocked); }
      var p := intents[k];
      if providerId != "" {
        if p.providerId.Some? && p.providerId != Some(providerId) { return Err(ProviderIdFixed); }
        if Conflict(intents, k, provider, providerId) { return Err(ProviderIdTaken); }
        p := p.(providerId := Some(providerId));
      }
      if status.Some? {
        if status.value == Pending { return Err(Unsupported); }
        if !Transition(p.status, status.value) { return Err(WrongState); }
        if status.value in {Authorized, Captured} && p.providerId.None? { return Err(NotVerified); }
        p := p.(status := status.value);
      }
      assert intents[k := intents[k]] == intents;
      assert intents[k := intents[k].(providerId := p.providerId)][k := p] == intents[k := p];
      intents := intents[k := p];
      events := events + {(provider, event)};
      r := Ok(Snapshot());
    }

    method CaptureVerified(reference: string, allowed: bool) returns (r: Result<State, Error>)
      modifies this
      ensures r == old(Capture(Snapshot(), reference, allowed))
      ensures Snapshot() == old(Step(Snapshot(), OpCapture(reference, allowed)))
    {
      var k := FindIntent(intents, reference);
      if k == |intents| { return Err(NotFound); }
      if intents[k].status !in {Authorized, Processing} { return Err(WrongState); }
      if intents[k].market.Some? && !allowed { return Err(Blocked); }
      if intents[k].providerId.None? { return Err(NotVerified); }
      intents := intents[k := intents[k].(status := Captured)];
      r := Ok(Snapshot());
    }

    method Settle(payment: string, reference: string, amount: int, currency: string, allowed: bool)
      returns (r: Result<State, Error>)
      modifies this
      ensures r == old(Payments.Settle(Snapshot(), payment, reference, amount, currency, allowed))
      ensures Snapshot() == old(Step(Snapshot(), OpSettle(payment, reference, amount, currency, allowed)))
    {
      var k := FindIntent(intents, payment);
      if k == |intents| { return Err(NotFound); }
      var p := intents[k];
      if p.status != Captured { return Err(WrongState); }
      if amount != p.amount || currency != p.currency { return Err(AmountMismatchError); }
      if p.market.None? { return Err(NoMarket); }
      if !allowed { return Err(Blocked); }
      var j := FindSettlement(settlements, reference);
      if j < |settlements| {
        var s := settlements[j];
        if s.payment == payment && s.amount == amount && s.currency == currency && s.provider == p.provider {
          return Ok(Snapshot());
        }
        return Err(OtherSettlement);
      }
      if Settled(settlements, payment) { return Err(AlreadySettled); }
      var proof := FindProof(p.provider, p.market.value, p.currency, payment);
      var s := Settlement(reference, payment, p.provider, p.market.value, amount, currency, false, None);
      if proof < |runs| { s := s.(reconciled := true, run := Some(runs[proof].reference)); }
      settlements := settlements + [s];
      r := Ok(Snapshot());
    }

    /** The first closed run that lists the payment, or the number of runs. */
    method FindProof(provider: string, market: int, currency: string, payment: string) returns (k: nat)
      ensures k == FirstProof(runs, provider, market, currency, payment)
    {
      k := 0;
      while k < |runs|
        invariant k <= |runs|
        invariant forall j :: 0 <= j < k ==> !Proves(runs[j], provider, market, currency, payment)
      {
        if Proves(runs[k], provider, market, currency, payment) { return; }
        k := k + 1;
      }
    }

    /** Book a statement: every row is classified against the payments, or nothing is booked. */
    method ReconcileBatch(m: Statement, allowed: bool) returns (r: Result<State, Error>)
      modifies this
      ensures r == old(Reconcile(Snapshot(), m, allowed))
      ensures Snapshot() == old(Step(Snapshot(), OpReconcile(m, allowed)))
    {
      if BadStatement(m) { return Err(BadArguments); }
      var k := FindRun(runs, m.reference);
      if k < |runs| {
        if SameSource(runs[k], m) { return Ok(Snapshot()); }
        return Err(OtherSource);
      }
      if !allowed { return Err(Blocked); }
      if m.rows == [] { return Err(EmptyStatement); }
      if exists row :: row in m.rows && row.ref == "" { return Err(BadRow); }
      if HasDuplicates(m.rows) { return Err(Duplicate); }
      if exists run :: run in runs && SameSource(run, m) { return Err(ConstraintViolation); }
      hide Booked, Unresolved, MissingItems, UniqueProviderRefs, HasDuplicates;
      var tally :- ClassifyRows(m);
      var missing := Unresolved(m.expected, tally.seen);
      var extra := ListMissing(m, missing);
      if !UniqueProviderRefs(tally.items + extra) { return Err(ConstraintViolation); }
      runs := runs + [Booked(m, tally, |missing|, extra)];
      r := Ok(Snapshot());
    }

    /** The loop over the statement's rows. */
    method ClassifyRows(m: Statement) returns (r: Result<Tally, Error>)
      ensures r == TallyRows(intents, m, |m.rows|)
    {
      hide FindProvided;
      var items: seq<Item>, seen: set<string>, matched: nat, exceptions: nat := [], {}, 0, 0;
      for n := 0 to |m.rows|
        invariant TallyRows(intents, m, n) == Ok(Tally(items, seen, matched, exceptions))
      {
        var row := m.rows[n];
        if row.actual <= 0 || row.currency == "" {
          FirstBadRow(intents, m, n + 1, |m.rows|);
          return Err(BadRow);
        }
        var k := FindProvided(intents, m.provider, row.ref);
        var p: Option<Intent> := None;
        if k < |intents| {
          if intents[k].market.None? {
            FirstBadRow(intents, m, n + 1, |m.rows|);
            return Err(NoMarket);
          }
          if intents[k].market.value == m.market { p := Some(intents[k]); }
        }
        var class_ := MissingInternal;
        if p.Some? {
          if row.currency != m.currency { class_ := CurrencyMismatch; }
          else if row.currency != p.value.currency { class_ := CurrencyMismatch; }
          else if row.actual != p.value.amount { class_ := AmountMismatch; }
          else { class_ := Matched; }
          if p.value.reference in seen { class_ := DuplicateProvider; }
          seen := seen + {p.value.reference};
        }
        if class_ == Matched { matched := matched + 1; } else { exceptions := exceptions + 1; }
        items := items + [Item(row.ref, if p.Some? then Some(p.value.reference) else None,
                               if p.Some? then Some(p.value.amount) else None, row.actual, row.currency, class_)];
      }
      r := Ok(Tally(items, seen, matched, exceptions));
    }

    method ListMissing(m: Statement, missing: seq<string>) returns (items: seq<Item>)
      ensures items == MissingItems(intents, m, missing)
    {
      items := [];
      for n := 0 to |missing|
        invariant items == MissingItems(intents, m, missing[..n])
      {
        assert missing[..n + 1][..n] == missing[..n];
        var k := FindIntent(intents, missing[n]);
        if k < |intents| && intents[k].provider == m.provider { items := items + [MissingItem(intents[k])]; }
      }
      assert missing[..|missing|] == missing;
    }

    /** Close a fully matched run, and mark the settlements of the payments that it lists. */
    method CloseReconciliationRun(reference: string) returns (r: Result<State, Error>)
      modifies this
      ensures r == old(Close(Snapshot(), reference))
      ensures Snapshot() == old(Step(Snapshot(), OpClose(reference)))
    {
      var k := FindRun(runs, reference);
      if k == |runs| { return Err(NotFound); }
      if runs[k].status == Closed { return Ok(Snapshot()); }
      if runs[k].exceptions != 0 || runs[k].status != AllMatched { return Err(UnresolvedExceptions); }
      var run := runs[k].(status := Closed);
      runs := runs[k := run];
      var marked := settlements;
      for n := 0 to |run.items|
        invariant |marked| == |settlements| && unchanged(`settlements) && unchanged(`intents) && unchanged(`events)
        invariant runs == old(runs)[k := run]
        invariant forall j :: 0 <= j < |marked| ==> marked[j] == MarkFrom(settlements[j], run, run.items[..n])
      {
        var item := run.items[n];
        ListedNext(run.items, n);
        if item.class_ == Matched && item.internal.Some? {
          marked := MarkPayment(marked, run, item.internal.value);
        }
      }
      assert run.items[..|run.items|] == run.items;
      assert marked == MarkAll(settlements, run);
      settlements := marked;
      r := Ok(Snapshot());
    }
  }

  /** The inner loop of the closing: every settlement of the payment with the run's provider and market. */
  method MarkPayment(settlements: seq<Settlement>, run: Recon, payment: string) returns (marked: seq<Settlement>)
    ensures |marked| == |settlements|
    ensures forall j :: 0 <= j < |marked| ==>
      marked[j] == if settlements[j].provider == run.provider && settlements[j].market == run.market
                   && settlements[j].payment == payment
                   then settlements[j].(reconciled := true, run := Some(run.reference)) else settlements[j]
  {
    marked := settlements;
    for j := 0 to |settlements|
      invariant |marked| == |settlements|
      invariant forall i :: j <= i < |marked| ==> marked[i] == settlements[i]
      invariant forall i :: 0 <= i < j ==>
        marked[i] == if settlements[i].provider == run.provider && settlements[i].market == run.market
                     && settlements[i].payment == payment
                     then settlements[i].(reconciled := true, run := Some(run.reference)) else settlements[i]
    {
      var s := marked[j];
      if s.provider == run.provider && s.market == run.market && s.payment == payment {
        marked := marked[j := s.(reconciled := true, run := Some(run.reference))];
      }
    }
  }

  /** The mark that the given items of the run leave on a settlement. */
  function MarkFrom(s: Settlement, run: Recon, items: seq<Item>): Settlement {
    if s.provider == run.provider && s.market == run.market && Listed(items, s.payment) then
      s.(reconciled := true, run := Some(run.reference))
    else s
  }

  lemma ListedNext(items: seq<Item>, n: nat)
    requires n < |items|
    ensures forall payment :: Listed(items[..n + 1], payment) <==>
              Listed(items[..n], payment) || (items[n].class_ == Matched && items[n].internal == Some(payment))
  {
    assert items[..n + 1] == items[..n] + [items[n]];
  }

  /** The first row that is refused decides the outcome. */
  lemma {:induction false} FirstBadRow(intents: seq<Intent>, m: Statement, n: nat, l: nat)
    requires n <= l <= |m.rows| && TallyRows(intents, m, n).Err?
    ensures TallyRows(intents, m, l) == TallyRows(intents, m, n)
  {
    if n < l { FirstBadRow(intents, m, n, l - 1); }
  }
}
