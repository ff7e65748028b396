/** Settling and closing agree: what every step of the payment service keeps. */
module Reconciliation {
  import opened Outcomes
  import opened Payments
  import opened Sorting

  // ---------------------------------------------------------------- the invariant

  predicate SameIdentity(p: Intent, q: Intent) {
    p.provider == q.provider && p.providerId == q.providerId && p.providerId.Some?
  }

  ghost predicate IntentsInv(intents: seq<Intent>) {
    && (forall i, j :: 0 <= i < j < |intents| ==> intents[i].reference != intents[j].reference)
    && (forall i, j :: 0 <= i < j < |intents| ==> !SameIdentity(intents[i], intents[j]))
    && (forall p :: p in intents ==> p.amount > 0)
  }

  /** The intent behind a payment reference, with what can never change about it. */
  ghost predicate Backed(intents: seq<Intent>, reference: string, provider: string, market: int, amount: int,
                         currency: string)
  {
    exists k :: 0 <= k < |intents| && BackedBy(intents[k], reference, provider, market, amount, currency)
  }

  predicate BackedBy(p: Intent, reference: string, provider: string, market: int, amount: int, currency: string) {
    p.reference == reference && p.provider == provider && p.market == Some(market) && p.amount == amount
    && p.currency == currency
  }

  /** A matched item is exactly what the provider's payment says. */
  ghost predicate ItemInv(intents: seq<Intent>, run: Recon, i: Item) {
    i.class_ == Matched ==>
      && i.internal.Some? && i.expected == Some(i.actual) && i.currency == run.currency
      && Backed(intents, i.internal.value, run.provider, run.market, i.actual, run.currency)
  }

  ghost predicate RunInv(intents: seq<Intent>, run: Recon) {
    && (forall i :: i in run.items ==> ItemInv(intents, run, i))
    && (run.status != Exceptions ==> forall i :: i in run.items ==> i.class_ == Matched)
  }

  /** Some closed run proves the settlement. */
  ghost predicate Proved(runs: seq<Recon>, s: Settlement) {
    exists r :: r in runs && Proves(r, s.provider, s.market, s.currency, s.payment)
  }

  /** The settlement pays a payment, and is reconciled only under a closed run that proves it. */
  ghost predicate SettlementInv(intents: seq<Intent>, runs: seq<Recon>, s: Settlement) {
    && Backed(intents, s.payment, s.provider, s.market, s.amount, s.currency)
    && (s.reconciled <==> s.run.Some?)
    && (s.run.Some? ==>
          exists r :: r in runs && r.reference == s.run.value && Proves(r, s.provider, s.market, s.currency, s.payment))
  }

  ghost predicate CoreInv(st: State) {
    && IntentsInv(st.intents)
    && (forall r :: r in st.runs ==> RunInv(st.intents, r))
    && (forall i, j :: 0 <= i < j < |st.runs| ==> st.runs[i].reference != st.runs[j].reference)
    && (forall s :: s in st.settlements ==> SettlementInv(st.intents, st.runs, s))
    && (forall i, j :: 0 <= i < j < |st.settlements| ==> st.settlements[i].payment != st.settlements[j].payment)
    && (forall i, j :: 0 <= i < j < |st.settlements| ==> st.settlements[i].reference != st.settlements[j].reference)
  }

  /** No proved settlement is left unreconciled. */
  ghost predicate NonePending(st: State) {
    forall s :: s in st.settlements && Proved(st.runs, s) ==> s.reconciled
  }

  ghost predicate Inv(st: State) { CoreInv(st) && NonePending(st) }

  lemma ReconciledIsProved(intents: seq<Intent>, runs: seq<Recon>, s: Settlement)
    requires SettlementInv(intents, runs, s)
    ensures s.reconciled ==> Proved(runs, s)
  {
  }

  lemma IdentityUnique(intents: seq<Intent>, p: Intent, q: Intent)
    requires IntentsInv(intents) && p in intents && q in intents && SameIdentity(p, q)
    ensures p == q
  {
    var i :| 0 <= i < |intents| && intents[i] == p;
    var j :| 0 <= j < |intents| && intents[j] == q;
  }

  // ---------------------------------------------------------------- intents only grow

  /** Intents may be added, and gain a status or a provider id. */
  ghost predicate Extends(before: seq<Intent>, after: seq<Intent>) {
    && |before| <= |after|
    && forall k :: 0 <= k < |before| ==> SameContract(before[k], after[k])
  }

  predicate SameContract(p: Intent, q: Intent) {
    p.reference == q.reference && p.provider == q.provider && p.amount == q.amount && p.currency == q.currency
    && p.market == q.market
  }

  lemma BackedStays(before: seq<Intent>, after: seq<Intent>, reference: string, provider: string, market: int,
                    amount: int, currency: string)
    requires Extends(before, after) && Backed(before, reference, provider, market, amount, currency)
    ensures Backed(after, reference, provider, market, amount, currency)
  {
    var k :| 0 <= k < |before| && BackedBy(before[k], reference, provider, market, amount, currency);
    assert SameContract(before[k], after[k]);
    assert BackedBy(after[k], reference, provider, market, amount, currency);
  }

  lemma RunStays(before: seq<Intent>, after: seq<Intent>, run: Recon)
    requires Extends(before, after) && RunInv(before, run)
    ensures RunInv(after, run)
  {
    hide Extends, Backed;
    forall i | i in run.items ensures ItemInv(after, run, i) {
      assert ItemInv(before, run, i);
      if i.class_ == Matched {
        BackedStays(before, after, i.internal.value, run.provider, run.market, i.actual, run.currency);
      }
    }
  }

  lemma IntentStepKeepsInv(st: State, intents: seq<Intent>, events: set<(string, string)>)
    requires CoreInv(st) && Extends(st.intents, intents) && IntentsInv(intents)
    ensures CoreInv(st.(intents := intents, events := events))
  {
    hide Extends, IntentsInv, Backed, Proved, RunInv;
    forall r | r in st.runs ensures RunInv(intents, r) { RunStays(st.intents, intents, r); }
    forall s | s in st.settlements ensures SettlementInv(intents, st.runs, s) {
      assert SettlementInv(st.intents, st.runs, s);
      BackedStays(st.intents, intents, s.payment, s.provider, s.market, s.amount, s.currency);
    }
  }

  /** A changed intent that keeps its contract and either keeps its id or gets one nobody has. */
  lemma SetIntentKeeps(intents: seq<Intent>, k: nat, p: Intent)
    requires IntentsInv(intents) && k < |intents| && SameContract(intents[k], p)
    requires p.providerId == intents[k].providerId
             || (p.providerId.Some? && !Conflict(intents, k, p.provider, p.providerId.value))
    ensures IntentsInv(intents[k := p]) && Extends(intents, intents[k := p])
  {
    var after := intents[k := p];
    assert intents[k] in intents;
    forall i, j | 0 <= i < j < |after| ensures !SameIdentity(after[i], after[j]) {
      assert !SameIdentity(intents[i], intents[j]);
      if p.providerId.Some? && p.providerId != intents[k].providerId {
        var other := if i == k then j else i;
        assert other != k ==> !Carries(intents[other], p.provider, p.providerId.value);
      }
    }
    forall q | q in after ensures q.amount > 0 { assert q == p || q in intents; }
  }

  lemma ProviderIdKeeps(st: State, k: nat, provider: string, providerId: string)
    requires IntentsInv(st.intents) && k < |st.intents| && st.intents[k].provider == provider
    requires WithProviderId(st, k, provider, providerId).Ok?
    ensures var after := WithProviderId(st, k, provider, providerId).value;
            after == st.(intents := after.intents) && |after.intents| == |st.intents|
            && IntentsInv(after.intents) && Extends(st.intents, after.intents)
  {
    hide IntentsInv, Extends, Conflict;
    SetIntentKeeps(st.intents, k, st.intents[k].(providerId := Some(providerId)));
  }

  lemma StatusKeeps(st: State, k: nat, status: Option<IntentStatus>)
    requires IntentsInv(st.intents) && k < |st.intents| && WithStatus(st, k, status).Ok?
    ensures var after := WithStatus(st, k, status).value;
            after == st.(intents := after.intents) && IntentsInv(after.intents) && Extends(st.intents, after.intents)
  {
    hide IntentsInv;
    if status.Some? { SetIntentKeeps(st.intents, k, st.intents[k].(status := status.value)); }
  }

  lemma ExtendsTrans(a: seq<Intent>, b: seq<Intent>, c: seq<Intent>)
    requires Extends(a, b) && Extends(b, c)
    ensures Extends(a, c)
  {
    forall k | 0 <= k < |a| ensures SameContract(a[k], c[k]) {
      assert SameContract(a[k], b[k]) && SameContract(b[k], c[k]);
    }
  }

  lemma WebhookKeepsInv(st: State, provider: string, event: string, kind: string, reference: string,
                        providerId: string, status: Option<IntentStatus>, allowed: bool)
    requires CoreInv(st) && Webhook(st, provider, event, kind, reference, providerId, status, allowed).Ok?
    ensures CoreInv(Webhook(st, provider, event, kind, reference, providerId, status, allowed).value)
    ensures NonePending(st) ==>
              NonePending(Webhook(st, provider, event, kind, reference, providerId, status, allowed).value)
  {
    if (provider, event) !in st.events {
      var k := FindIntent(st.intents, reference);
      var first := if providerId == "" then st else WithProviderId(st, k, provider, providerId).value;
      assert Extends(st.intents, st.intents);
      if providerId != "" { ProviderIdKeeps(st, k, provider, providerId); }
      hide Extends, IntentsInv, WithProviderId, WithStatus, CoreInv, Proved;
      assert IntentsInv(first.intents) by { if providerId == "" { InvIntents(st); } }
      StatusKeeps(first, k, status);
      var second := WithStatus(first, k, status).value;
      ExtendsTrans(st.intents, first.intents, second.intents);
      IntentStepKeepsInv(st, second.intents, st.events + {(provider, event)});
    }
  }

  lemma InvIntents(st: State)
    requires CoreInv(st)
    ensures IntentsInv(st.intents)
  {
  }

  lemma IntentOpsKeepInv(st: State, op: Op)
    requires CoreInv(st) && (op.OpCreate? || op.OpProcessing? || op.OpAttach? || op.OpCapture?) && Perform(st, op).Ok?
    ensures CoreInv(Perform(st, op).value)
    ensures NonePending(st) ==> NonePending(Perform(st, op).value)
  {
    InvIntents(st);
    hide CoreInv, Proved, Webhook, Settle, Reconcile, Close;
    var k, after := FindIntent(st.intents, op.reference), Perform(st, op).value;
    if op.OpCreate? {
      var p := after.intents[|st.intents|];
      assert forall q :: q in after.intents ==> q == p || q in st.intents;
      assert Extends(st.intents, after.intents);
    } else if op.OpAttach? {
      ProviderIdKeeps(st, k, st.intents[k].provider, op.providerId);
    } else {
      SetIntentKeeps(st.intents, k, after.intents[k]);
    }
    IntentStepKeepsInv(st, after.intents, st.events);
  }

  // ---------------------------------------------------------------- settling

  /** One more settlement, of a payment and under a reference that had none. */
  lemma AppendKeepsCore(st: State, s: Settlement)
    requires CoreInv(st) && SettlementInv(st.intents, st.runs, s)
    requires !Settled(st.settlements, s.payment) && FindSettlement(st.settlements, s.reference) == |st.settlements|
    ensures CoreInv(st.(settlements := st.settlements + [s]))
  {
    hide IntentsInv, RunInv, SettlementInv;
    var after := st.settlements + [s];
    assert forall x :: x in after ==> x == s || x in st.settlements;
    forall i | 0 <= i < |st.settlements|
      ensures st.settlements[i].payment != s.payment && st.settlements[i].reference != s.reference
    {
      assert st.settlements[i] in st.settlements;
    }
  }

  /** The settlement of a payment as it is read: proved by what has been closed. */
  lemma NewSettlementInv(intents: seq<Intent>, runs: seq<Recon>, p: Intent, reference: string)
    requires p in intents && p.market.Some?
    ensures var s := NewSettlement(runs, p, reference);
            SettlementInv(intents, runs, s) && (s.reconciled <==> Proved(runs, s))
  {
    var s := NewSettlement(runs, p, reference);
    assert BackedBy(p, p.reference, s.provider, s.market, s.amount, s.currency);
    hide Proves;
    var r := FirstProof(runs, p.provider, p.market.value, p.currency, p.reference);
    if r < |runs| { assert runs[r] in runs; }
  }

  lemma SettleKeepsInv(st: State, payment: string, reference: string, amount: int, currency: string, allowed: bool)
    requires CoreInv(st) && Settle(st, payment, reference, amount, currency, allowed).Ok?
    ensures CoreInv(Settle(st, payment, reference, amount, currency, allowed).value)
    ensures NonePending(st) ==> NonePending(Settle(st, payment, reference, amount, currency, allowed).value)
  {
    var after := Settle(st, payment, reference, amount, currency, allowed).value;
    if after != st {
      var p, s := st.intents[FindIntent(st.intents, payment)], after.settlements[|st.settlements|];
      NewSettlementInv(st.intents, st.runs, p, reference);
      hide CoreInv, SettlementInv, NewSettlement, Proved;
      AppendKeepsCore(st, s);
      assert forall x :: x in after.settlements ==> x == s || x in st.settlements;
    }
  }

  // ---------------------------------------------------------------- closing

  /** The mark on a settlement says exactly that the run, once closed, proves it. */
  lemma MarkMeansProof(intents: seq<Intent>, run: Recon, s: Settlement)
    requires RunInv(intents, run) && run.status == Closed && IntentsInv(intents)
    requires Backed(intents, s.payment, s.provider, s.market, s.amount, s.currency)
    ensures Mark(s, run)
            == if Proves(run, s.provider, s.market, s.currency, s.payment)
               then s.(reconciled := true, run := Some(run.reference)) else s
  {
    if Lists(run, s.payment) {
      var i :| i in run.items && i.class_ == Matched && i.internal == Some(s.payment);
      assert ItemInv(intents, run, i);
      var a :| 0 <= a < |intents| && BackedBy(intents[a], s.payment, run.provider, run.market, i.actual, run.currency);
      var b :| 0 <= b < |intents| && BackedBy(intents[b], s.payment, s.provider, s.market, s.amount, s.currency);
      assert a == b;
    }
  }

  /** Closing the run at k adds exactly its own proofs. */
  lemma ProofAfterClose(runs: seq<Recon>, k: nat, run: Recon, s: Settlement)
    requires k < |runs| && runs[k].status != Closed && run == runs[k].(status := Closed)
    ensures Proved(runs[k := run], s) <==> Proved(runs, s) || Proves(run, s.provider, s.market, s.currency, s.payment)
  {
    hide Lists;
    var after := runs[k := run];
    assert after[k] in after;
    if Proved(runs, s) {
      var r :| r in runs && Proves(r, s.provider, s.market, s.currency, s.payment);
      var i :| 0 <= i < |runs| && runs[i] == r;
      assert after[i] in after;
    }
    if Proved(after, s) {
      var r :| r in after && Proves(r, s.provider, s.market, s.currency, s.payment);
      assert r == run || r in runs;
    }
  }

  /** A settlement stays sound whether the closing marks it or not. */
  lemma MarkedSettlement(intents: seq<Intent>, runs: seq<Recon>, k: nat, run: Recon, s: Settlement)
    requires k < |runs| && runs[k].status != Closed && run == runs[k].(status := Closed)
    requires RunInv(intents, run) && IntentsInv(intents) && SettlementInv(intents, runs, s)
    ensures SettlementInv(intents, runs[k := run], s) && SettlementInv(intents, runs[k := run], Mark(s, run))
  {
    var after := runs[k := run];
    MarkMeansProof(intents, run, s);
    hide Lists, IntentsInv, RunInv, Backed, Mark;
    assert after[k] in after;
    if s.run.Some? {
      var r :| r in runs && r.reference == s.run.value && Proves(r, s.provider, s.market, s.currency, s.payment);
      var i :| 0 <= i < |runs| && runs[i] == r;
      assert after[i] in after;
    }
  }

  lemma ClosedRunInv(intents: seq<Intent>, run: Recon)
    requires RunInv(intents, run) && run.status == AllMatched
    ensures RunInv(intents, run.(status := Closed))
  {
    var closed := run.(status := Closed);
    assert forall i :: i in run.items ==> ItemInv(intents, run, i) && ItemInv(intents, closed, i);
  }

  /** Closing a matched run, with marks on any of the settlements that it lists. */
  lemma CloseKeepsCore(st: State, k: nat, run: Recon, settlements: seq<Settlement>)
    requires CoreInv(st) && k < |st.runs| && st.runs[k].status == AllMatched && run == st.runs[k].(status := Closed)
    requires |settlements| == |st.settlements|
    requires forall n :: 0 <= n < |settlements| ==>
               settlements[n] == st.settlements[n] || settlements[n] == Mark(st.settlements[n], run)
    ensures CoreInv(st.(runs := st.runs[k := run], settlements := settlements))
  {
    assert st.runs[k] in st.runs;
    ClosedRunInv(st.intents, st.runs[k]);
    hide RunInv, IntentsInv, SettlementInv, Mark;
    var runs := st.runs[k := run];
    assert forall r :: r in runs ==> r == run || r in st.runs;
    forall s | s in settlements ensures SettlementInv(st.intents, runs, s) {
      var n :| 0 <= n < |settlements| && settlements[n] == s;
      assert st.settlements[n] in st.settlements;
      MarkedSettlement(st.intents, st.runs, k, run, st.settlements[n]);
    }
    forall n | 0 <= n < |settlements|
      ensures settlements[n].payment == st.settlements[n].payment
      ensures settlements[n].reference == st.settlements[n].reference
    {
      MarkIdentity(st.settlements[n], run);
    }
  }

  /** Closing the run proves the settlement, or leaves its proofs as they were; a mark says which. */
  lemma ClosedProof(st: State, k: nat, run: Recon, n: nat)
    requires CoreInv(st) && k < |st.runs| && st.runs[k].status == AllMatched && run == st.runs[k].(status := Closed)
    requires n < |st.settlements|
    ensures var s := st.settlements[n];
            && (Proved(st.runs[k := run], s) <==>
                Proved(st.runs, s) || Proves(run, s.provider, s.market, s.currency, s.payment))
            && (Proved(st.runs[k := run], Mark(s, run)) <==> Proved(st.runs[k := run], s))
            && (Mark(s, run).reconciled <==> s.reconciled || Proves(run, s.provider, s.market, s.currency, s.payment))
  {
    var s := st.settlements[n];
    assert st.runs[k] in st.runs && s in st.settlements && SettlementInv(st.intents, st.runs, s);
    ClosedRunInv(st.intents, st.runs[k]);
    MarkMeansProof(st.intents, run, s);
    ProofAfterClose(st.runs, k, run, s);
    hide Lists, IntentsInv, RunInv, Backed, Mark;
  }

  lemma CloseKeepsInv(st: State, reference: string)
    requires CoreInv(st) && Close(st, reference).Ok?
    ensures CoreInv(Close(st, reference).value)
    ensures NonePending(st) ==> NonePending(Close(st, reference).value)
  {
    var k := FindRun(st.runs, reference);
    var after := Close(st, reference).value;
    if st.runs[k].status != Closed {
      var run := after.runs[k];
      hide CoreInv, Mark, Proves, Proved, FindRun;
      CloseKeepsCore(st, k, run, after.settlements);
      if NonePending(st) {
        forall s | s in after.settlements && Proved(after.runs, s) ensures s.reconciled {
          var n :| 0 <= n < |after.settlements| && after.settlements[n] == s;
          assert st.settlements[n] in st.settlements;
          ClosedProof(st, k, run, n);
        }
      }
    }
  }

  lemma MarkIdentity(s: Settlement, run: Recon)
    ensures Mark(s, run).payment == s.payment && Mark(s, run).reference == s.reference
  {
  }

  // ---------------------------------------------------------------- statements

  /** What a row's item says about the payment it resolved to. */
  ghost predicate RowFact(intents: seq<Intent>, m: Statement, row: Row, i: Item) {
    && i.providerRef == row.ref && i.actual == row.actual && i.currency == row.currency && row.actual > 0
    && match i.internal
       case None =>
         i.class_ == MissingInternal && forall p :: p in intents ==>
             !(Carries(p, m.provider, row.ref) && p.market == Some(m.market))
       case Some(reference) =>
         exists k :: 0 <= k < |intents| && ResolvedTo(intents[k], m, row, reference)
                     && i.class_ == ClassOf(intents[k], m, row) && i.expected == Some(intents[k].amount)
  }

  /** What a row says of the payment it resolved to. */
  function ClassOf(p: Intent, m: Statement, row: Row): Class {
    if !(row.currency == m.currency == p.currency) then CurrencyMismatch
    else if row.actual == p.amount then Matched
    else AmountMismatch
  }

  predicate ResolvedTo(p: Intent, m: Statement, row: Row, reference: string) {
    p.reference == reference && Carries(p, m.provider, row.ref) && p.market == Some(m.market)
  }

  ghost predicate TallyInv(intents: seq<Intent>, m: Statement, n: nat, t: Tally)
    requires n <= |m.rows|
  {
    && |t.items| == n
    && (forall k :: 0 <= k < n ==> RowFact(intents, m, m.rows[k], t.items[k]))
    && (forall x :: x in t.seen <==> exists k :: 0 <= k < n && t.items[k].internal == Some(x))
    && t.matched == CountMatched(t.items) && t.matched + t.exceptions == n
  }

  function CountMatched(items: seq<Item>): nat {
    if items == [] then 0
    else CountMatched(items[..|items| - 1]) + if items[|items| - 1].class_ == Matched then 1 else 0
  }

  lemma {:induction false} CountMatchedAll(items: seq<Item>)
    ensures CountMatched(items) <= |items|
    ensures CountMatched(items) == |items| <==> forall i :: i in items ==> i.class_ == Matched
  {
    if items != [] {
      var n := |items| - 1;
      CountMatchedAll(items[..n]);
      assert items == items[..n] + [items[n]];
    }
  }

  /** Two rows do not resolve to one payment: provider ids are unique, and so are the rows' references. */
  lemma RowsResolveApart(intents: seq<Intent>, m: Statement, row: Row, i: Item, other: Row, p: Intent)
    requires IntentsInv(intents) && row.ref != other.ref && RowFact(intents, m, row, i)
    requires p in intents && Carries(p, m.provider, other.ref)
    ensures i.internal != Some(p.reference)
  {
    if i.internal.Some? {
      var a :| 0 <= a < |intents| && ResolvedTo(intents[a], m, row, i.internal.value);
      var b :| 0 <= b < |intents| && intents[b] == p;
      assert a != b;
    }
  }

  lemma FreshPayment(intents: seq<Intent>, m: Statement, n: nat, t: Tally, p: Intent)
    requires IntentsInv(intents) && !HasDuplicates(m.rows) && n < |m.rows| && TallyInv(intents, m, n, t)
    requires p in intents && Carries(p, m.provider, m.rows[n].ref)
    ensures p.reference !in t.seen
  {
    hide IntentsInv, RowFact, Carries;
    forall k | 0 <= k < n ensures t.items[k].internal != Some(p.reference) {
      RowsResolveApart(intents, m, m.rows[k], t.items[k], m.rows[n], p);
    }
  }

  lemma RowFactHolds(intents: seq<Intent>, m: Statement, row: Row, p: Option<Intent>, seen: set<string>)
    requires IntentsInv(intents) && Resolve(intents, m, row) == Ok(p) && (p.Some? ==> p.value.reference !in seen)
    ensures RowFact(intents, m, row, ItemFor(m, row, p, seen))
  {
    var k := FindProvided(intents, m.provider, row.ref);
    if p.Some? {
      assert ResolvedTo(intents[k], m, row, p.value.reference);
    } else {
      forall q | q in intents && Carries(q, m.provider, row.ref) ensures q.market != Some(m.market) {
        IdentityUnique(intents, q, intents[k]);
      }
    }
  }

  lemma {:induction false} TallyKeeps(intents: seq<Intent>, m: Statement, n: nat)
    requires IntentsInv(intents) && !HasDuplicates(m.rows) && n <= |m.rows| && TallyRows(intents, m, n).Ok?
    ensures TallyInv(intents, m, n, TallyRows(intents, m, n).value)
  {
    if n > 0 {
      hide HasDuplicates, IntentsInv, TallyInv, Resolve;
      TallyKeeps(intents, m, n - 1);
      LastRow(intents, m, n, TallyRows(intents, m, n - 1).value, Resolve(intents, m, m.rows[n - 1]).value);
    }
  }

  lemma LastRow(intents: seq<Intent>, m: Statement, n: nat, t: Tally, p: Option<Intent>)
    requires IntentsInv(intents) && !HasDuplicates(m.rows) && 0 < n <= |m.rows| && TallyInv(intents, m, n - 1, t)
    requires Resolve(intents, m, m.rows[n - 1]) == Ok(p)
    ensures TallyInv(intents, m, n, AddItem(t, ItemFor(m, m.rows[n - 1], p, t.seen)))
  {
    hide HasDuplicates, IntentsInv, TallyInv, RowFact, AddItem, ItemFor;
    if p.Some? { FreshPayment(intents, m, n - 1, t, p.value); }
    RowFactHolds(intents, m, m.rows[n - 1], p, t.seen);
    TallyStep(intents, m, n, t, ItemFor(m, m.rows[n - 1], p, t.seen));
  }

  lemma TallyStep(intents: seq<Intent>, m: Statement, n: nat, t: Tally, i: Item)
    requires 0 < n <= |m.rows| && TallyInv(intents, m, n - 1, t) && RowFact(intents, m, m.rows[n - 1], i)
    ensures TallyInv(intents, m, n, AddItem(t, i))
  {
    hide RowFact;
    var after := AddItem(t, i);
    assert after.items[..n - 1] == t.items;
    forall x ensures x in after.seen <==> exists k :: 0 <= k < n && after.items[k].internal == Some(x) {
      if x in t.seen {
        var k :| 0 <= k < n - 1 && t.items[k].internal == Some(x);
        assert after.items[k].internal == Some(x);
      }
      if i.internal == Some(x) { assert after.items[n - 1].internal == Some(x); }
      if k :| 0 <= k < n && after.items[k].internal == Some(x) {
        assert k < n - 1 ==> t.items[k].internal == Some(x);
      }
    }
  }

  /** The statement matched this row: the payment is there, with its market, currency and amount. */
  lemma RowItemInv(intents: seq<Intent>, m: Statement, row: Row, i: Item, run: Recon)
    requires RowFact(intents, m, row, i) && run.provider == m.provider && run.market == m.market
    requires run.currency == m.currency
    ensures ItemInv(intents, run, i)
  {
    if i.class_ == Matched {
      var k :| 0 <= k < |intents| && ResolvedTo(intents[k], m, row, i.internal.value)
               && row.currency == m.currency == intents[k].currency && row.actual == intents[k].amount;
      assert BackedBy(intents[k], i.internal.value, run.provider, run.market, i.actual, run.currency);
    }
  }

  lemma {:induction false} MissingAreExceptions(intents: seq<Intent>, m: Statement, missing: seq<string>)
    ensures forall i :: i in MissingItems(intents, m, missing) ==> i.class_ == MissingInProvider
    ensures MissingItems(intents, m, missing) == [] <==> forall x :: x in missing ==> !Awaited(intents, m, x)
  {
    if missing != [] {
      var n := |missing| - 1;
      MissingAreExceptions(intents, m, missing[..n]);
      assert missing == missing[..n] + [missing[n]];
    }
  }

  lemma BookedInv(intents: seq<Intent>, m: Statement, t: Tally, missing: seq<string>)
    requires IntentsInv(intents) && TallyInv(intents, m, |m.rows|, t)
    ensures RunInv(intents, Booked(m, t, |missing|, MissingItems(intents, m, missing)))
  {
    var extra := MissingItems(intents, m, missing);
    var run := Booked(m, t, |missing|, extra);
    MissingAreExceptions(intents, m, missing);
    CountMatchedAll(t.items);
    hide RowFact, MissingItems, CountMatched;
    forall i | i in run.items ensures ItemInv(intents, run, i) {
      if i in t.items {
        var k :| 0 <= k < |t.items| && t.items[k] == i;
        RowItemInv(intents, m, m.rows[k], i, run);
      }
    }
  }

  lemma ReconcileKeepsInv(st: State, m: Statement, allowed: bool)
    requires CoreInv(st) && Reconcile(st, m, allowed).Ok?
    ensures CoreInv(Reconcile(st, m, allowed).value)
    ensures NonePending(st) ==> NonePending(Reconcile(st, m, allowed).value)
  {
    InvIntents(st);
    hide IntentsInv, TallyInv, TallyRows, HasDuplicates, Unresolved, MissingItems, UniqueProviderRefs, Booked,
         SettlementInv, RunInv;
    hide CoreInv, NonePending;
    var after := Reconcile(st, m, allowed).value;
    if after != st {
      TallyKeeps(st.intents, m, |m.rows|);
      var t := TallyRows(st.intents, m, |m.rows|).value;
      BookedInv(st.intents, m, t, Unresolved(m.expected, t.seen));
      NewRunFields(m, t, |Unresolved(m.expected, t.seen)|, MissingItems(st.intents, m, Unresolved(m.expected, t.seen)));
      BookRun(st, after.runs[|st.runs|]);
    }
  }

  lemma NewRunFields(m: Statement, t: Tally, missing: nat, extra: seq<Item>)
    ensures Booked(m, t, missing, extra).reference == m.reference && Booked(m, t, missing, extra).status != Closed
  {
  }

  lemma OpenRunProvesNothing(runs: seq<Recon>, run: Recon, s: Settlement)
    requires run.status != Closed
    ensures Proved(runs + [run], s) <==> Proved(runs, s)
  {
    assert forall r :: r in runs + [run] <==> r in runs || r == run;
  }

  lemma BookRun(st: State, run: Recon)
    requires CoreInv(st) && run.status != Closed && RunInv(st.intents, run)
    requires FindRun(st.runs, run.reference) == |st.runs|
    ensures CoreInv(st.(runs := st.runs + [run]))
    ensures NonePending(st) ==> NonePending(st.(runs := st.runs + [run]))
  {
    hide RunInv, IntentsInv, Backed, Proves, Proved;
    var runs := st.runs + [run];
    assert forall r :: r in runs <==> r in st.runs || r == run;
    forall s | s in st.settlements
      ensures SettlementInv(st.intents, runs, s) && (Proved(runs, s) <==> Proved(st.runs, s))
    {
      assert SettlementInv(st.intents, st.runs, s);
      OpenRunProvesNothing(st.runs, run, s);
    }
  }

  // ---------------------------------------------------------------- every run

  lemma StepKeepsInv(st: State, op: Op)
    requires CoreInv(st)
    ensures CoreInv(Step(st, op))
    ensures NonePending(st) ==> NonePending(Step(st, op))
  {
    hide CoreInv, NonePending, CreateIntent, MarkProcessing, Attach, Webhook, Capture, Settle, Reconcile, Close;
    if Perform(st, op).Ok? {
      match op
      case OpWebhook(provider, event, kind, reference, providerId, status, allowed) =>
        WebhookKeepsInv(st, provider, event, kind, reference, providerId, status, allowed);
      case OpSettle(reference, settlement, amount, currency, allowed) =>
        SettleKeepsInv(st, reference, settlement, amount, currency, allowed);
      case OpReconcile(m, allowed) => ReconcileKeepsInv(st, m, allowed);
      case OpClose(run) => CloseKeepsInv(st, run);
      case _ => IntentOpsKeepInv(st, op);
    }
  }

  lemma {:induction false} RunKeepsInv(ops: seq<Op>)
    ensures Inv(Run(EMPTY, ops))
  {
    if ops != [] {
      hide CoreInv, NonePending, Step;
      RunKeepsInv(ops[..|ops| - 1]);
      StepKeepsInv(Run(EMPTY, ops[..|ops| - 1]), ops[|ops| - 1]);
    }
  }

  /** Main result, in every run of whole calls and whichever of settling and closing came first: a settlement is
      reconciled exactly when a closed run of its provider, market and currency lists its payment as
      matched; it is the payment's only settlement, for exactly the payment's amount; and a closed run
      holds matched items only. */
  lemma ReconciledIffProved(ops: seq<Op>)
    ensures var st := Run(EMPTY, ops);
            && (forall s :: s in st.settlements ==> (s.reconciled <==> Proved(st.runs, s)))
            && (forall s :: s in st.settlements ==>
                Backed(st.intents, s.payment, s.provider, s.market, s.amount, s.currency))
            && (forall i, j :: 0 <= i < j < |st.settlements| ==> st.settlements[i].payment != st.settlements[j].payment)
            && (forall r, i :: r in st.runs && r.status == Closed && i in r.items ==> i.class_ == Matched)
  {
    hide Proved, Backed, IntentsInv;
    RunKeepsInv(ops);
    var st := Run(EMPTY, ops);
    forall s | s in st.settlements
      ensures (s.reconciled <==> Proved(st.runs, s))
      ensures Backed(st.intents, s.payment, s.provider, s.market, s.amount, s.currency)
    {
      assert SettlementInv(st.intents, st.runs, s);
      ReconciledIsProved(st.intents, st.runs, s);
    }
    forall r, i | r in st.runs && r.status == Closed && i in r.items ensures i.class_ == Matched {
      assert RunInv(st.intents, r);
    }
  }

  // ---------------------------------------------------------------- settling and closing commute

  lemma FirstProofAfterClose(runs: seq<Recon>, k: nat, run: Recon, provider: string, market: int, currency: string,
                             payment: string)
    requires k < |runs| && runs[k].status != Closed && run == runs[k].(status := Closed)
    ensures FirstProof(runs[k := run], provider, market, currency, payment)
         == if Proves(run, provider, market, currency, payment)
            && k <= FirstProof(runs, provider, market, currency, payment) then k
            else FirstProof(runs, provider, market, currency, payment)
  {
    hide Lists;
    var after := runs[k := run];
    var a, b := FirstProof(runs, provider, market, currency, payment),
        FirstProof(after, provider, market, currency, payment);
    assert after[k] == run && forall j :: 0 <= j < |runs| && j != k ==> after[j] == runs[j];
    assert !Proves(runs[k], provider, market, currency, payment);
  }

  predicate SameButRun(a: Settlement, b: Settlement) { a == b.(run := a.run) }

  ghost predicate ProvedTwice(runs: seq<Recon>, s: Settlement) {
    exists i, j :: 0 <= i < j < |runs| && Proves(runs[i], s.provider, s.market, s.currency, s.payment)
                   && Proves(runs[j], s.provider, s.market, s.currency, s.payment)
  }

  /** The same rows, except that a settlement of the payment that two closed runs prove may name
      either of them. */
  ghost predicate SameOutcome(a: State, b: State, payment: string) {
    && a.intents == b.intents && a.runs == b.runs && a.events == b.events && |a.settlements| == |b.settlements|
    && forall k :: 0 <= k < |a.settlements| && a.settlements[k] != b.settlements[k] ==>
         SameButRun(a.settlements[k], b.settlements[k]) && a.settlements[k].payment == payment
         && ProvedTwice(a.runs, a.settlements[k])
  }

  /** A payment is settled and a run is closed, in one order or the other: both orders are accepted
      alike, and they have the same outcome. */
  lemma SettleCloseCommute(st: State, payment: string, reference: string, amount: int, currency: string, run: string)
    requires Inv(st) && Settle(st, payment, reference, amount, currency, true).Ok? && Close(st, run).Ok?
    ensures var settled := Settle(st, payment, reference, amount, currency, true).value;
            var closed := Close(st, run).value;
            && Close(settled, run).Ok? && Settle(closed, payment, reference, amount, currency, true).Ok?
            && SameOutcome(Close(settled, run).value,
                           Settle(closed, payment, reference, amount, currency, true).value, payment)
  {
    var k := FindRun(st.runs, run);
    var settled := Settle(st, payment, reference, amount, currency, true).value;
    if settled == st {
      SettledAlready(st, payment, reference, amount, currency, run);
    } else if st.runs[k].status == Closed {
      hide IntentsInv, SettlementInv, RunInv, Lists, FindIntent;
    } else {
      SettleThenClose(st, payment, reference, amount, currency, run);
    }
  }

  lemma SettleThenClose(st: State, payment: string, reference: string, amount: int, currency: string, run: string)
    requires Inv(st) && Settle(st, payment, reference, amount, currency, true).Ok? && Close(st, run).Ok?
    requires Settle(st, payment, reference, amount, currency, true).value != st
    requires st.runs[FindRun(st.runs, run)].status != Closed
    ensures var settled := Settle(st, payment, reference, amount, currency, true).value;
            var closed := Close(st, run).value;
            && Close(settled, run).Ok? && Settle(closed, payment, reference, amount, currency, true).Ok?
            && SameOutcome(Close(settled, run).value,
                           Settle(closed, payment, reference, amount, currency, true).value, payment)
  {
    var n, k := |st.settlements|, FindRun(st.runs, run);
    var settled, closed := Settle(st, payment, reference, amount, currency, true).value, Close(st, run).value;
    var p, s, closing := st.intents[FindIntent(st.intents, payment)], settled.settlements[n], closed.runs[k];
    CloseKeepsInv(st, run);
    assert closing in closed.runs && RunInv(st.intents, closing);
    assert BackedBy(p, payment, s.provider, s.market, s.amount, s.currency);
    InvIntents(st);
    hide Inv, IntentsInv, RunInv, Lists, FirstProof, Mark, NewSettlement, Proves, SameOutcome;
    NewRowAgrees(st.intents, st.runs, k, closing, p, reference);
    ClosedKeepsPayments(st.settlements, closing, payment, reference);
    assert Close(settled, run).value == st.(runs := closed.runs, settlements := MarkAll(st.settlements + [s], closing));
    RowsAgree(st, closed.runs, closing, s, NewSettlement(closed.runs, p, reference));
  }

  lemma RowsAgree(st: State, runs: seq<Recon>, closing: Recon, s: Settlement, t: Settlement)
    requires SameButRun(Mark(s, closing), t) && (Mark(s, closing) != t ==> ProvedTwice(runs, Mark(s, closing)))
    ensures SameOutcome(st.(runs := runs, settlements := MarkAll(st.settlements + [s], closing)),
                        st.(runs := runs, settlements := MarkAll(st.settlements, closing) + [t]),
                            Mark(s, closing).payment)
  {
    hide Mark, ProvedTwice;
  }

  /** The row that settling adds, marked by the closing, is the row that it adds after the closing. */
  lemma NewRowAgrees(intents: seq<Intent>, runs: seq<Recon>, k: nat, closing: Recon, p: Intent, reference: string)
    requires k < |runs| && runs[k].status != Closed && closing == runs[k].(status := Closed)
    requires IntentsInv(intents) && RunInv(intents, closing) && p in intents && p.market.Some?
    ensures var a, b := Mark(NewSettlement(runs, p, reference), closing),
            NewSettlement(runs[k := closing], p, reference);
            a.payment == p.reference && SameButRun(a, b) && (a != b ==> ProvedTwice(runs[k := closing], a))
  {
    var s := NewSettlement(runs, p, reference);
    assert BackedBy(p, s.payment, s.provider, s.market, s.amount, s.currency);
    MarkMeansProof(intents, closing, s);
    hide Mark, RunInv, IntentsInv, Lists, Backed;
    FirstProofAfterClose(runs, k, closing, s.provider, s.market, s.currency, s.payment);
    assert runs[k := closing][k] == closing;
  }

  lemma ClosedKeepsPayments(settlements: seq<Settlement>, run: Recon, payment: string, reference: string)
    ensures Settled(MarkAll(settlements, run), payment) <==> Settled(settlements, payment)
    ensures FindSettlement(settlements, reference) == |settlements| ==>
              FindSettlement(MarkAll(settlements, run), reference) == |settlements|
  {
    var marked := MarkAll(settlements, run);
    forall k | 0 <= k < |settlements|
      ensures marked[k].payment == settlements[k].payment && marked[k].reference == settlements[k].reference
    {
      MarkIdentity(settlements[k], run);
    }
    hide Mark;
    if Settled(settlements, payment) {
      var k :| 0 <= k < |settlements| && settlements[k].payment == payment;
      assert marked[k] in marked;
    }
  }

  lemma SettledAlready(st: State, payment: string, reference: string, amount: int, currency: string, run: string)
    requires Inv(st) && Settle(st, payment, reference, amount, currency, true) == Ok(st) && Close(st, run).Ok?
    ensures Settle(Close(st, run).value, payment, reference, amount, currency, true) == Close(st, run)
  {
    hide IntentsInv, SettlementInv, RunInv, Lists, FindIntent, FirstProof;
    var closed := Close(st, run).value;
  }

  // ---------------------------------------------------------------- what a statement run says

  /** The row pays a known payment of the statement's provider and market, exactly. */
  predicate PaysExactly(p: Intent, m: Statement, row: Row) {
    && Carries(p, m.provider, row.ref) && p.market == Some(m.market)
    && row.currency == m.currency == p.currency && row.actual == p.amount
  }

  lemma RowMatchedIff(intents: seq<Intent>, m: Statement, row: Row, i: Item)
    requires IntentsInv(intents) && RowFact(intents, m, row, i)
    ensures i.class_ == Matched <==> exists p :: p in intents && PaysExactly(p, m, row)
    ensures i.class_ != DuplicateProvider
  {
    if i.internal.Some? {
      var k :| 0 <= k < |intents| && ResolvedTo(intents[k], m, row, i.internal.value)
               && i.class_ == ClassOf(intents[k], m, row);
      if i.class_ == Matched { assert PaysExactly(intents[k], m, row); }
      if p :| p in intents && PaysExactly(p, m, row) {
        IdentityUnique(intents, p, intents[k]);
      }
    }
  }

  /** A row of the statement resolved to the payment. */
  ghost predicate RowFor(intents: seq<Intent>, m: Statement, reference: string) {
    exists k, p :: 0 <= k < |m.rows| && p in intents && ResolvedTo(p, m, m.rows[k], reference)
  }

  lemma SeenMeansRow(intents: seq<Intent>, m: Statement, t: Tally, reference: string)
    requires IntentsInv(intents) && TallyInv(intents, m, |m.rows|, t)
    ensures reference in t.seen <==> RowFor(intents, m, reference)
  {
    if reference in t.seen {
      var k :| 0 <= k < |m.rows| && t.items[k].internal == Some(reference);
      assert RowFact(intents, m, m.rows[k], t.items[k]);
      var a :| 0 <= a < |intents| && ResolvedTo(intents[a], m, m.rows[k], reference);
      assert intents[a] in intents && ResolvedTo(intents[a], m, m.rows[k], reference);
    }
    if RowFor(intents, m, reference) {
      var k, p :| 0 <= k < |m.rows| && p in intents && ResolvedTo(p, m, m.rows[k], reference);
      var i := t.items[k];
      assert RowFact(intents, m, m.rows[k], i);
      assert i.internal.Some?;
      var b :| 0 <= b < |intents| && ResolvedTo(intents[b], m, m.rows[k], i.internal.value);
      IdentityUnique(intents, p, intents[b]);
    }
  }

  lemma AllMatchedIff(intents: seq<Intent>, m: Statement, t: Tally)
    requires IntentsInv(intents) && TallyInv(intents, m, |m.rows|, t)
    ensures t.exceptions == 0 <==> forall row :: row in m.rows ==> exists p :: p in intents && PaysExactly(p, m, row)
  {
    hide IntentsInv, PaysExactly;
    CountMatchedAll(t.items);
    forall k | 0 <= k < |m.rows|
      ensures t.items[k].class_ == Matched <==> exists p :: p in intents && PaysExactly(p, m, m.rows[k])
    {
      RowMatchedIff(intents, m, m.rows[k], t.items[k]);
    }
    hide RowFact, CountMatched;
    if t.exceptions == 0 {
      forall row | row in m.rows ensures exists p :: p in intents && PaysExactly(p, m, row) {
        var k :| 0 <= k < |m.rows| && m.rows[k] == row;
        assert t.items[k] in t.items;
      }
    } else {
      var i :| i in t.items && i.class_ != Matched;
      var k :| 0 <= k < |t.items| && t.items[k] == i;
      assert m.rows[k] in m.rows;
    }
  }

  /** The run that an accepted new statement books. */
  lemma NewRun(st: State, m: Statement)
    requires Inv(st) && FindRun(st.runs, m.reference) == |st.runs| && Reconcile(st, m, true).Ok?
    ensures TallyRows(st.intents, m, |m.rows|).Ok?
    ensures var t := TallyRows(st.intents, m, |m.rows|).value;
            var missing := Unresolved(m.expected, t.seen);
            && IntentsInv(st.intents) && TallyInv(st.intents, m, |m.rows|, t)
            && Reconcile(st, m, true).value
               == st.(runs := st.runs + [Booked(m, t, |missing|, MissingItems(st.intents, m, missing))])
  {
    InvIntents(st);
    hide Inv, IntentsInv, TallyInv, MissingItems, UniqueProviderRefs, Unresolved, TallyRows, HasDuplicates, Booked,
         SameSource, FindRun;
    TallyKeeps(st.intents, m, |m.rows|);
  }

  lemma CloseNewRun(st: State, run: Recon)
    requires FindRun(st.runs, run.reference) == |st.runs|
    requires run.status == (if run.exceptions == 0 then AllMatched else Exceptions)
    ensures Close(st.(runs := st.runs + [run]), run.reference).Ok? <==> run.exceptions == 0
  {
    var runs := st.runs + [run];
    assert runs[|st.runs|] == run;
    assert FindRun(runs, run.reference) == |st.runs|;
  }

  /** A new run can be closed if and only if every row pays a known payment exactly, and every expected
      payment of the provider has its row. An expected reference that the provider has no payment for
      does not stand in the way. */
  lemma ClosableIff(st: State, m: Statement)
    requires Inv(st) && FindRun(st.runs, m.reference) == |st.runs| && Reconcile(st, m, true).Ok?
    ensures Close(Reconcile(st, m, true).value, m.reference).Ok? <==>
              && (forall row :: row in m.rows ==> exists p :: p in st.intents && PaysExactly(p, m, row))
              && (forall x :: x in m.expected && Awaited(st.intents, m, x) ==> RowFor(st.intents, m, x))
  {
    NewRun(st, m);
    var t := TallyRows(st.intents, m, |m.rows|).value;
    var missing := Unresolved(m.expected, t.seen);
    hide Inv, IntentsInv, TallyInv, MissingItems, TallyRows, RowFor, PaysExactly, Awaited, Reconcile, FindRun, Close;
    CloseNewRun(st, Booked(m, t, |missing|, MissingItems(st.intents, m, missing)));
    AllMatchedIff(st.intents, m, t);
    MissingAreExceptions(st.intents, m, missing);
    forall x | x in m.expected ensures x in t.seen <==> RowFor(st.intents, m, x) {
      SeenMeansRow(st.intents, m, t, x);
    }
  }

  lemma {:induction false} MissingCount(intents: seq<Intent>, m: Statement, missing: seq<string>)
    ensures |MissingItems(intents, m, missing)| <= |missing|
    ensures |MissingItems(intents, m, missing)| == |missing| <==> forall x :: x in missing ==> Awaited(intents, m, x)
  {
    if missing != [] {
      var n := |missing| - 1;
      MissingCount(intents, m, missing[..n]);
      assert missing == missing[..n] + [missing[n]];
    }
  }

  /** The totals of a new run add up exactly when every expected reference that no row resolved to is a
      payment of the provider: the others are counted in the total, but as nothing. */
  lemma TotalsAddUpIff(st: State, m: Statement)
    requires Inv(st) && FindRun(st.runs, m.reference) == |st.runs| && Reconcile(st, m, true).Ok?
    ensures var run := Reconcile(st, m, true).value.runs[|st.runs|];
            && |run.items| == run.matched + run.exceptions
            && (run.total == run.matched + run.exceptions <==>
                  forall x :: x in m.expected && !RowFor(st.intents, m, x) ==> Awaited(st.intents, m, x))
  {
    NewRun(st, m);
    var t := TallyRows(st.intents, m, |m.rows|).value;
    var missing := Unresolved(m.expected, t.seen);
    MissingCount(st.intents, m, missing);
    forall x | x in m.expected ensures x in t.seen <==> RowFor(st.intents, m, x) {
      SeenMeansRow(st.intents, m, t, x);
    }
    hide IntentsInv, RowFor, TallyRows, MissingItems, Inv, Awaited, RowFact, Reconcile, FindRun;
  }

  // ---------------------------------------------------------------- the life of an intent

  /** The moves of a payment, whoever makes them. */
  predicate StatusMove(from: IntentStatus, to: IntentStatus) {
    match from
    case Pending => to in {Processing, Authorized, Failed, Cancelled}
    case Processing => to in {Authorized, Captured, Failed, Cancelled}
    case Authorized => to in {Captured, Failed, Cancelled}
    case Captured => to == Refunded
    case _ => false
  }

  /** Failed, cancelled and refunded are final; a captured payment can only become refunded; nothing is captured
      without the provider's id; and an id once given stays. */
  predicate LifeStep(p: Intent, q: Intent) {
    && SameContract(p, q)
    && (p.providerId.Some? ==> q.providerId == p.providerId)
    && (q.status == p.status || StatusMove(p.status, q.status))
    && (q.status == Captured && p.status != Captured ==> q.providerId.Some?)
  }

  lemma ProviderIdLife(st: State, j: nat, provider: string, providerId: string, k: nat)
    requires k < |st.intents| && j < |st.intents| && WithProviderId(st, j, provider, providerId).Ok?
    ensures var after := WithProviderId(st, j, provider, providerId).value;
            && |after.intents| == |st.intents| && LifeStep(st.intents[k], after.intents[k])
            && after.intents[k].status == st.intents[k].status
  {
    hide Conflict;
  }

  lemma StatusLife(st: State, j: nat, status: Option<IntentStatus>, k: nat)
    requires k < |st.intents| && j < |st.intents| && WithStatus(st, j, status).Ok?
    ensures var after := WithStatus(st, j, status).value;
            |after.intents| == |st.intents| && LifeStep(st.intents[k], after.intents[k])
  {
  }

  lemma WebhookLife(st: State, provider: string, event: string, kind: string, reference: string,
                    providerId: string, status: Option<IntentStatus>, allowed: bool, k: nat)
    requires k < |st.intents| && Webhook(st, provider, event, kind, reference, providerId, status, allowed).Ok?
    ensures var after := Webhook(st, provider, event, kind, reference, providerId, status, allowed).value;
            |after.intents| == |st.intents| && LifeStep(st.intents[k], after.intents[k])
  {
    hide WithProviderId, WithStatus;
    if (provider, event) !in st.events {
      var j := FindIntent(st.intents, reference);
      if providerId != "" { ProviderIdLife(st, j, provider, providerId, k); }
      var first := if providerId == "" then st else WithProviderId(st, j, provider, providerId).value;
      StatusLife(first, j, status, k);
    }
  }

  lemma IntentLife(st: State, op: Op, k: nat)
    requires k < |st.intents|
    ensures |Step(st, op).intents| >= |st.intents| && LifeStep(st.intents[k], Step(st, op).intents[k])
  {
    hide Webhook, Settle, Reconcile, Close, Conflict;
    if Perform(st, op).Ok? {
      if op.OpWebhook? {
        WebhookLife(st, op.provider, op.event, op.kind, op.reference, op.providerId, op.status, op.allowed, k);
      } else if op.OpSettle? || op.OpReconcile? || op.OpClose? {
        IntentsUntouched(st, op);
      }
    }
  }

  lemma IntentsUntouched(st: State, op: Op)
    requires (op.OpSettle? || op.OpReconcile? || op.OpClose?) && Perform(st, op).Ok?
    ensures Perform(st, op).value.intents == st.intents
  {
    hide CreateIntent, MarkProcessing, Attach, Webhook, Capture, TallyRows, HasDuplicates, UniqueProviderRefs;
  }
}
