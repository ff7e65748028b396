/** Settling and closing in two halves: a settling locks its payment and looks for a closed run, a closing locks
    its run and looks for settlements, and neither sees what the other has not committed. */
module SettlementOverlap {
  import opened Outcomes
  import opened Payments
  import opened Reconciliation

  /** A settling in flight: the row it will insert, and how many closings were committed when it looked. */
  datatype Settling = Settling(row: Settlement, since: nat, open: bool)

  /** A closing in flight: for each item it has looked up, how many settlements there were. */
  datatype Closing = Closing(run: nat, readAt: seq<nat>, open: bool)

  /** `closed` lists the runs in the order in which their closings were committed. */
  datatype Desk = Desk(st: State, settlings: seq<Settling>, closings: seq<Closing>, closed: seq<nat>)

  const IDLE := Desk(EMPTY, [], [], [])

  // ---------------------------------------------------------------- the steps

  predicate PaymentLocked(d: Desk, payment: string) {
    exists a :: 0 <= a < |d.settlings| && d.settlings[a].open && d.settlings[a].row.payment == payment
  }

  predicate RunLocked(d: Desk, k: nat) {
    exists c :: 0 <= c < |d.closings| && d.closings[c].open && d.closings[c].run == k
  }

  /** The first half of `settle`: lock the payment, check it, and look for a closed run that proves it. */
  function ReadProof(d: Desk, payment: string, reference: string, amount: int, currency: string, allowed: bool): Desk {
    if PaymentLocked(d, payment) then d
    else
      match Settle(d.st, payment, reference, amount, currency, allowed)
      case Err(_) => d
      case Ok(after) =>
        if |after.settlements| == |d.st.settlements| + 1
        then d.(settlings := d.settlings + [Settling(after.settlements[|d.st.settlements|], |d.closed|, true)])
        else d
  }

  predicate MayInsert(d: Desk, a: nat) {
    a < |d.settlings| && d.settlings[a].open
    && FindSettlement(d.st.settlements, d.settlings[a].row.reference) == |d.st.settlements|
  }

  function EndSettling(d: Desk, a: nat): Desk
    requires a < |d.settlings|
  {
    d.(settlings := d.settlings[a := d.settlings[a].(open := false)])
  }

  /** The second half: insert and commit, unless the reference has been taken. */
  function Insert(d: Desk, a: nat): Desk {
    if MayInsert(d, a) then EndSettling(d, a).(st := d.st.(settlements := d.st.settlements + [d.settlings[a].row]))
    else if a < |d.settlings| then EndSettling(d, a)
    else d
  }

  /** The first half of `close_reconciliation_run`: lock a matched run. */
  function LockRun(d: Desk, reference: string): Desk {
    var k := FindRun(d.st.runs, reference);
    if k == |d.st.runs| || RunLocked(d, k) || d.st.runs[k].status != AllMatched || d.st.runs[k].exceptions != 0 then d
    else d.(closings := d.closings + [Closing(k, [], true)])
  }

  /** The settlements of one more item are read. */
  function ReadItem(d: Desk, c: nat): Desk {
    if c < |d.closings| && d.closings[c].open && d.closings[c].run < |d.st.runs|
       && |d.closings[c].readAt| < |d.st.runs[d.closings[c].run].items|
    then d.(closings := d.closings[c := d.closings[c].(readAt := d.closings[c].readAt + [|d.st.settlements|])])
    else d
  }

  predicate MayClose(d: Desk, c: nat) {
    c < |d.closings| && d.closings[c].open && d.closings[c].run < |d.st.runs|
    && |d.closings[c].readAt| == |d.st.runs[d.closings[c].run].items|
  }

  /** The settlement at n was there when the closing looked up an item of its payment. */
  predicate Seen(run: Recon, readAt: seq<nat>, payment: string, n: nat) {
    exists q :: 0 <= q < |readAt| && q < |run.items| && n < readAt[q]
                && run.items[q].class_ == Matched && run.items[q].internal == Some(payment)
  }

  function MarkSeen(settlements: seq<Settlement>, run: Recon, readAt: seq<nat>): (r: seq<Settlement>)
    ensures |r| == |settlements|
    ensures forall n :: 0 <= n < |r| ==>
      r[n] == if Seen(run, readAt, settlements[n].payment, n) then Mark(settlements[n], run) else settlements[n]
  {
    seq(|settlements|, n requires 0 <= n < |settlements| =>
      if Seen(run, readAt, settlements[n].payment, n) then Mark(settlements[n], run) else settlements[n])
  }

  function ClosedRun(d: Desk, c: nat): Recon
    requires MayClose(d, c)
  {
    d.st.runs[d.closings[c].run].(status := Closed)
  }

  /** The second half: mark the settlements that were read, and commit. */
  function CloseRun(d: Desk, c: nat): Desk {
    if !MayClose(d, c) then d
    else
      var k := d.closings[c].run;
      Desk(d.st.(runs := d.st.runs[k := ClosedRun(d, c)],
                 settlements := MarkSeen(d.st.settlements, ClosedRun(d, c), d.closings[c].readAt)),
           d.settlings, d.closings[c := d.closings[c].(open := false)], d.closed + [k])
  }

  datatype Event =
    | EvOp(op: Op)
    | EvReadProof(payment: string, reference: string, amount: int, currency: string, allowed: bool)
    | EvInsert(a: nat)
    | EvDropSettling(a: nat)
    | EvLockRun(run: string)
    | EvReadItem(c: nat)
    | EvClose(c: nat)
    | EvDropClosing(c: nat)

  /** The other calls; those on a payment wait for its settling. */
  predicate Admitted(d: Desk, op: Op) {
    && !op.OpSettle? && !op.OpClose?
    && (op.OpProcessing? || op.OpAttach? || op.OpWebhook? || op.OpCapture? ==> !PaymentLocked(d, op.reference))
  }

  function Next(d: Desk, e: Event): Desk {
    match e
    case EvOp(op) => if Admitted(d, op) then d.(st := Step(d.st, op)) else d
    case EvReadProof(payment, reference, amount, currency, allowed) =>
      ReadProof(d, payment, reference, amount, currency, allowed)
    case EvInsert(a) => Insert(d, a)
    case EvDropSettling(a) => if a < |d.settlings| then EndSettling(d, a) else d
    case EvLockRun(run) => LockRun(d, run)
    case EvReadItem(c) => ReadItem(d, c)
    case EvClose(c) => CloseRun(d, c)
    case EvDropClosing(c) =>
      if c < |d.closings| then d.(closings := d.closings[c := d.closings[c].(open := false)]) else d
  }

  function RunAll(d: Desk, events: seq<Event>): Desk {
    if events == [] then d else Next(RunAll(d, events[..|events| - 1]), events[|events| - 1])
  }

  // ---------------------------------------------------------------- what every event keeps

  predicate ProvesRow(run: Recon, s: Settlement) { Proves(run, s.provider, s.market, s.currency, s.payment) }

  /** What a settling holds: a sound row for a payment that is not settled, and the proofs of its time. */
  ghost predicate SettlingInv(d: Desk, a: Settling) {
    && SettlementInv(d.st.intents, d.st.runs, a.row) && !Settled(d.st.settlements, a.row.payment)
    && a.since <= |d.closed|
    && (!a.row.reconciled ==>
          forall j :: 0 <= j < a.since && d.closed[j] < |d.st.runs| ==> !ProvesRow(d.st.runs[d.closed[j]], a.row))
  }

  ghost predicate ClosingInv(d: Desk, c: Closing) {
    && c.run < |d.st.runs| && d.st.runs[c.run].status == AllMatched && |c.readAt| <= |d.st.runs[c.run].items|
    && forall q :: 0 <= q < |c.readAt| ==> c.readAt[q] <= |d.st.settlements|
  }

  ghost predicate LogInv(d: Desk) {
    && (forall j :: 0 <= j < |d.closed| ==> d.closed[j] < |d.st.runs|)
    && forall k :: 0 <= k < |d.st.runs| ==> (d.st.runs[k].status == Closed <==> k in d.closed)
  }

  ghost predicate SettlingsInv(d: Desk) {
    && (forall a :: 0 <= a < |d.settlings| && d.settlings[a].open ==> SettlingInv(d, d.settlings[a]))
    && forall a, b :: 0 <= a < b < |d.settlings| && d.settlings[a].open && d.settlings[b].open ==>
         d.settlings[a].row.payment != d.settlings[b].row.payment
  }

  ghost predicate ClosingsInv(d: Desk) {
    && (forall c :: 0 <= c < |d.closings| && d.closings[c].open ==> ClosingInv(d, d.closings[c]))
    && forall b, c :: 0 <= b < c < |d.closings| && d.closings[b].open && d.closings[c].open ==>
         d.closings[b].run != d.closings[c].run
  }

  ghost predicate DeskInv(d: Desk) { CoreInv(d.st) && LogInv(d) && SettlingsInv(d) && ClosingsInv(d) }

  /** Payments and runs are added, and keep what settlements and closings depend on. */
  ghost predicate Extended(st: State, after: State) {
    && Extends(st.intents, after.intents) && after.settlements == st.settlements
    && |st.runs| <= |after.runs| && (forall k :: 0 <= k < |st.runs| ==> after.runs[k] == st.runs[k])
    && forall k :: |st.runs| <= k < |after.runs| ==> after.runs[k].status != Closed
  }

  lemma SettlementStays(st: State, after: State, s: Settlement)
    requires Extended(st, after) && SettlementInv(st.intents, st.runs, s)
    ensures SettlementInv(after.intents, after.runs, s)
  {
    hide Extends, Backed, Proves;
    BackedStays(st.intents, after.intents, s.payment, s.provider, s.market, s.amount, s.currency);
    if s.run.Some? {
      var r :| r in st.runs && r.reference == s.run.value && Proves(r, s.provider, s.market, s.currency, s.payment);
      var k :| 0 <= k < |st.runs| && st.runs[k] == r;
      assert after.runs[k] in after.runs;
    }
  }

  lemma ExtendedKeeps(d: Desk, after: State)
    requires DeskInv(d) && Extended(d.st, after) && CoreInv(after)
    ensures DeskInv(d.(st := after))
  {
    forall a | 0 <= a < |d.settlings| && d.settlings[a].open ensures SettlingInv(d.(st := after), d.settlings[a]) {
      assert SettlingInv(d, d.settlings[a]);
      SettlementStays(d.st, after, d.settlings[a].row);
    }
    hide CoreInv, SettlementInv, Proves, Extends;
    forall k | 0 <= k < |after.runs| ensures after.runs[k].status == Closed <==> k in d.closed {
    }
    forall c | 0 <= c < |d.closings| && d.closings[c].open ensures ClosingInv(d.(st := after), d.closings[c]) {
      assert ClosingInv(d, d.closings[c]);
    }
  }

  lemma IntentOpExtends(st: State, op: Op)
    requires CoreInv(st) && (op.OpCreate? || op.OpProcessing? || op.OpAttach? || op.OpCapture? || op.OpWebhook?)
    ensures Extended(st, Step(st, op))
  {
    hide Settle, Reconcile, Close, CoreInv;
    assert Extends(st.intents, st.intents);
    forall k | 0 <= k < |st.intents|
      ensures SameContract(st.intents[k], Step(st, op).intents[k]) && |st.intents| <= |Step(st, op).intents|
    {
      IntentLife(st, op, k);
    }
    IntentOpFrame(st, op);
  }

  lemma IntentOpFrame(st: State, op: Op)
    requires op.OpCreate? || op.OpProcessing? || op.OpAttach? || op.OpCapture? || op.OpWebhook?
    ensures Step(st, op).runs == st.runs && Step(st, op).settlements == st.settlements
    ensures |st.intents| <= |Step(st, op).intents|
  {
    hide Settle, Reconcile, Close, Conflict;
  }

  lemma ReconcileExtends(st: State, m: Statement, allowed: bool)
    requires Reconcile(st, m, allowed).Ok?
    ensures Extended(st, Reconcile(st, m, allowed).value)
  {
    hide TallyRows, HasDuplicates, UniqueProviderRefs, Unresolved, MissingItems;
    assert Extends(st.intents, st.intents);
  }

  lemma OpExtends(d: Desk, op: Op)
    requires DeskInv(d) && Admitted(d, op)
    ensures Extended(d.st, Step(d.st, op))
  {
    hide CoreInv, LogInv, SettlingsInv, ClosingsInv, Extended, DeskInv;
    CoreOf(d);
    if op.OpReconcile? {
      hide Reconcile;
      if Reconcile(d.st, op.m, op.allowed).Ok? { ReconcileExtends(d.st, op.m, op.allowed); } else { Unchanged(d.st); }
    } else {
      IntentOpExtends(d.st, op);
    }
  }

  lemma OpKeeps(d: Desk, op: Op)
    requires DeskInv(d) && Admitted(d, op)
    ensures DeskInv(d.(st := Step(d.st, op)))
    ensures NonePending(d.st) ==> NonePending(Step(d.st, op))
  {
    hide NonePending, CoreInv, LogInv, SettlingsInv, ClosingsInv, Extended, DeskInv, Step;
    CoreOf(d);
    StepKeepsInv(d.st, op);
    OpExtends(d, op);
    ExtendedKeeps(d, Step(d.st, op));
  }

  lemma CoreOf(d: Desk)
    requires DeskInv(d)
    ensures CoreInv(d.st) && LogInv(d) && SettlingsInv(d) && ClosingsInv(d)
  {
  }

  lemma Unchanged(st: State)
    ensures Extended(st, st)
  {
  }

  // ---------------------------------------------------------------- settling

  lemma ReadProofKeeps(d: Desk, payment: string, reference: string, amount: int, currency: string, allowed: bool)
    requires DeskInv(d)
    ensures DeskInv(ReadProof(d, payment, reference, amount, currency, allowed))
  {
    var after := ReadProof(d, payment, reference, amount, currency, allowed);
    if after != d {
      var p := d.st.intents[FindIntent(d.st.intents, payment)];
      var a := after.settlings[|d.settlings|];
      NewSettlementInv(d.st.intents, d.st.runs, p, reference);
      assert a.row == NewSettlement(d.st.runs, p, reference) && !Settled(d.st.settlements, payment);
      hide CoreInv, ClosingsInv, SettlementInv, NewSettlement, Settle;
      NoneBefore(d, a.row);
      assert SettlingInv(after, a);
      forall b | 0 <= b < |d.settlings| && d.settlings[b].open ensures SettlingInv(after, d.settlings[b]) {
        assert SettlingInv(d, d.settlings[b]);
      }
      assert ClosingsInv(after) by { SameClosings(d, after); }
    }
  }

  lemma SameClosings(d: Desk, after: Desk)
    requires ClosingsInv(d) && after == d.(settlings := after.settlings)
    ensures ClosingsInv(after)
  {
  }

  /** A row that is not proved is not proved by any closing so far. */
  lemma NoneBefore(d: Desk, row: Settlement)
    requires row.reconciled <==> Proved(d.st.runs, row)
    ensures !row.reconciled ==> forall j :: 0 <= j < |d.closed| && d.closed[j] < |d.st.runs| ==>
              !ProvesRow(d.st.runs[d.closed[j]], row)
  {
    hide Proves;
    forall j | 0 <= j < |d.closed| && d.closed[j] < |d.st.runs|
      ensures ProvesRow(d.st.runs[d.closed[j]], row) ==> row.reconciled
    {
      assert d.st.runs[d.closed[j]] in d.st.runs;
    }
  }

  /** The settling commits although a run that lists its payment has been closed since it looked. */
  predicate LateInsert(d: Desk, e: Event) {
    && e.EvInsert? && MayInsert(d, e.a)
    && var a := d.settlings[e.a];
       !a.row.reconciled
       && exists j :: a.since <= j < |d.closed| && d.closed[j] < |d.st.runs| && ProvesRow(d.st.runs[d.closed[j]], a.row)
  }

  lemma OnlyClosedProves(run: Recon, s: Settlement)
    requires ProvesRow(run, s)
    ensures run.status == Closed
  {
  }

  /** An unproved row is proved by now if and only if it was overtaken. */
  lemma OvertakenIsProved(d: Desk, a: nat)
    requires DeskInv(d) && a < |d.settlings| && d.settlings[a].open && !d.settlings[a].row.reconciled
    ensures Proved(d.st.runs, d.settlings[a].row) <==>
              exists j :: d.settlings[a].since <= j < |d.closed| && d.closed[j] < |d.st.runs|
                          && ProvesRow(d.st.runs[d.closed[j]], d.settlings[a].row)
  {
    hide CoreInv, ClosingsInv, SettlementInv, Listed;
    var s := d.settlings[a];
    assert SettlingInv(d, s);
    if Proved(d.st.runs, s.row) {
      var r :| r in d.st.runs && ProvesRow(r, s.row);
      OnlyClosedProves(r, s.row);
      var k :| 0 <= k < |d.st.runs| && d.st.runs[k] == r;
      var j :| 0 <= j < |d.closed| && d.closed[j] == k;
    }
    if j :| s.since <= j < |d.closed| && d.closed[j] < |d.st.runs| && ProvesRow(d.st.runs[d.closed[j]], s.row) {
      assert d.st.runs[d.closed[j]] in d.st.runs;
    }
  }

  lemma EndSettlingKeeps(d: Desk, a: nat)
    requires DeskInv(d) && a < |d.settlings|
    ensures DeskInv(EndSettling(d, a))
  {
    hide CoreInv, SettlementInv, ProvesRow;
    var after := EndSettling(d, a);
    SameClosings(d, after);
    forall b | 0 <= b < |after.settlings| && after.settlings[b].open ensures SettlingInv(after, after.settlings[b]) {
      assert SettlingInv(d, d.settlings[b]);
    }
  }

  lemma InsertKeeps(d: Desk, a: nat)
    requires DeskInv(d)
    ensures DeskInv(Insert(d, a))
    ensures NonePending(d.st) ==> (NonePending(Insert(d, a).st) <==> !LateInsert(d, EvInsert(a)))
  {
    hide CoreInv, SettlementInv, ProvesRow, Proved, FindSettlement;
    if MayInsert(d, a) {
      var row, after := d.settlings[a].row, Insert(d, a);
      assert SettlingInv(d, d.settlings[a]);
      AppendKeepsCore(d.st, row);
      forall b | 0 <= b < |after.settlings| && after.settlings[b].open ensures SettlingInv(after, after.settlings[b]) {
        assert SettlingInv(d, d.settlings[b])
               && d.settlings[if a < b then a else b].row.payment != d.settlings[if a < b then b else a].row.payment;
      }
      forall c | 0 <= c < |d.closings| && d.closings[c].open ensures ClosingInv(after, d.closings[c]) {
        assert ClosingInv(d, d.closings[c]);
      }
      hide SettlingsInv, ClosingsInv, LogInv;
      if !row.reconciled { OvertakenIsProved(d, a); }
      assert row in after.st.settlements && forall s :: s in after.st.settlements ==> s in d.st.settlements || s == row;
    } else if a < |d.settlings| {
      EndSettlingKeeps(d, a);
    }
  }

  // ---------------------------------------------------------------- closing

  /** The closing commits although a settlement that it should mark has been committed since it looked. */
  predicate LateClose(d: Desk, e: Event) {
    && e.EvClose? && MayClose(d, e.c)
    && exists n :: 0 <= n < |d.st.settlements| && Missed(d, e.c, n)
  }

  predicate Missed(d: Desk, c: nat, n: nat)
    requires MayClose(d, c) && n < |d.st.settlements|
  {
    var s := d.st.settlements[n];
    !s.reconciled && ProvesRow(ClosedRun(d, c), s) && !Seen(ClosedRun(d, c), d.closings[c].readAt, s.payment, n)
  }

  lemma LockRunKeeps(d: Desk, reference: string)
    requires DeskInv(d)
    ensures DeskInv(LockRun(d, reference))
  {
    hide CoreInv, FindRun, SettlementInv, ProvesRow;
    var after := LockRun(d, reference);
    if after != d {
      var c := after.closings[|d.closings|];
      assert ClosingInv(after, c);
      forall b | 0 <= b < |d.closings| && d.closings[b].open ensures ClosingInv(after, d.closings[b]) {
        assert ClosingInv(d, d.closings[b]);
      }
      forall a | 0 <= a < |d.settlings| && d.settlings[a].open ensures SettlingInv(after, d.settlings[a]) {
        assert SettlingInv(d, d.settlings[a]);
      }
    }
  }

  lemma ReadItemKeeps(d: Desk, c: nat)
    requires DeskInv(d)
    ensures DeskInv(ReadItem(d, c))
  {
    hide CoreInv, SettlementInv, ProvesRow;
    var after := ReadItem(d, c);
    if after != d {
      forall b | 0 <= b < |after.closings| && after.closings[b].open ensures ClosingInv(after, after.closings[b]) {
        assert ClosingInv(d, d.closings[b]);
      }
      forall a | 0 <= a < |d.settlings| && d.settlings[a].open ensures SettlingInv(after, d.settlings[a]) {
        assert SettlingInv(d, d.settlings[a]);
      }
    }
  }

  lemma DropClosingKeeps(d: Desk, c: nat)
    requires DeskInv(d) && c < |d.closings|
    ensures DeskInv(d.(closings := d.closings[c := d.closings[c].(open := false)]))
  {
    hide CoreInv, SettlementInv, ProvesRow;
    var after := d.(closings := d.closings[c := d.closings[c].(open := false)]);
    forall b | 0 <= b < |after.closings| && after.closings[b].open ensures ClosingInv(after, after.closings[b]) {
      assert ClosingInv(d, d.closings[b]);
    }
    forall a | 0 <= a < |d.settlings| && d.settlings[a].open ensures SettlingInv(after, d.settlings[a]) {
      assert SettlingInv(d, d.settlings[a]);
    }
  }

  lemma CloseKeepsSettlings(d: Desk, c: nat)
    requires DeskInv(d) && MayClose(d, c)
    ensures SettlingsInv(CloseRun(d, c))
  {
    hide ClosingsInv, RunInv, ProvesRow, Mark, Seen;
    var k, run, after := d.closings[c].run, ClosedRun(d, c), CloseRun(d, c);
    ClosingOf(d, c);
    hide ClosingInv;
    forall a | 0 <= a < |d.settlings| && d.settlings[a].open ensures SettlingInv(after, d.settlings[a]) {
      var s := d.settlings[a];
      assert SettlingInv(d, s);
      ClosedRunOf(d, c);
      MarkedSettlement(d.st.intents, d.st.runs, k, run, s.row);
      SettledStays(d.st.settlements, after.st.settlements, run, s.row.payment);
      forall j | 0 <= j < s.since ensures !s.row.reconciled ==> !ProvesRow(after.st.runs[after.closed[j]], s.row) {
        assert after.closed[j] == d.closed[j] && d.closed[j] in d.closed;
        assert d.closed[j] != k;
      }
    }
  }

  lemma ClosingOf(d: Desk, c: nat)
    requires DeskInv(d) && c < |d.closings| && d.closings[c].open
    ensures ClosingInv(d, d.closings[c]) && d.closings[c].run !in d.closed
  {
  }

  lemma ClosedRunOf(d: Desk, c: nat)
    requires DeskInv(d) && MayClose(d, c)
    ensures RunInv(d.st.intents, ClosedRun(d, c)) && IntentsInv(d.st.intents)
  {
    ClosingOf(d, c);
    assert d.st.runs[d.closings[c].run] in d.st.runs;
    ClosedRunInv(d.st.intents, d.st.runs[d.closings[c].run]);
  }

  lemma SettledStays(settlements: seq<Settlement>, after: seq<Settlement>, run: Recon, payment: string)
    requires |settlements| == |after|
    requires forall n :: 0 <= n < |after| ==> after[n] == settlements[n] || after[n] == Mark(settlements[n], run)
    ensures Settled(after, payment) <==> Settled(settlements, payment)
  {
    forall n | 0 <= n < |after| ensures after[n].payment == settlements[n].payment {
      MarkIdentity(settlements[n], run);
    }
    hide Mark;
    if Settled(settlements, payment) {
      var n :| 0 <= n < |settlements| && settlements[n].payment == payment;
      assert after[n] in after;
    }
    if Settled(after, payment) {
      var n :| 0 <= n < |after| && after[n].payment == payment;
      assert settlements[n] in settlements;
    }
  }

  lemma CloseKeepsRest(d: Desk, c: nat)
    requires DeskInv(d) && MayClose(d, c)
    ensures CoreInv(CloseRun(d, c).st) && LogInv(CloseRun(d, c)) && ClosingsInv(CloseRun(d, c))
  {
    ClosingOf(d, c);
    hide CoreInv, SettlingsInv, Seen;
    var k, after := d.closings[c].run, CloseRun(d, c);
    CloseKeepsCore(d.st, k, ClosedRun(d, c), after.st.settlements);
    hide Mark;
    forall b | 0 <= b < |after.closings| && after.closings[b].open ensures ClosingInv(after, after.closings[b]) {
      assert ClosingInv(d, d.closings[b]);
      assert d.closings[if b < c then b else c].run != d.closings[if b < c then c else b].run;
    }
    assert forall x :: x in after.closed <==> x in d.closed || x == k;
  }

  lemma CloseKeepsCount(d: Desk, c: nat)
    ensures |CloseRun(d, c).st.settlements| == |d.st.settlements|
  {
  }

  /** The settlement at n is left pending by the closing exactly when the closing missed it. */
  lemma MissedIff(d: Desk, c: nat, n: nat)
    requires DeskInv(d) && MayClose(d, c) && NonePending(d.st) && n < |d.st.settlements|
    ensures var after := CloseRun(d, c).st;
            |after.settlements| == |d.st.settlements|
            && (Proved(after.runs, after.settlements[n]) && !after.settlements[n].reconciled <==> Missed(d, c, n))
  {
    ClosingOf(d, c);
    hide CoreInv, SettlingsInv, ClosingsInv, LogInv, Seen, Mark, Proved, Proves;
    assert d.st.settlements[n] in d.st.settlements;
    ClosedProof(d.st, d.closings[c].run, ClosedRun(d, c), n);
  }

  lemma CloseIsLateIff(d: Desk, c: nat)
    requires DeskInv(d) && MayClose(d, c) && NonePending(d.st)
    ensures NonePending(CloseRun(d, c).st) <==> !LateClose(d, EvClose(c))
  {
    var after := CloseRun(d, c).st;
    hide DeskInv, CloseRun, MayClose, Missed, Proved;
    forall n | 0 <= n < |d.st.settlements|
      ensures |after.settlements| == |d.st.settlements|
              && (Proved(after.runs, after.settlements[n]) && !after.settlements[n].reconciled <==> Missed(d, c, n))
    {
      MissedIff(d, c, n);
    }
    CloseKeepsCount(d, c);
    if LateClose(d, EvClose(c)) {
      var n :| 0 <= n < |d.st.settlements| && Missed(d, c, n);
      assert after.settlements[n] in after.settlements;
    }
    if !NonePending(after) {
      var s :| s in after.settlements && Proved(after.runs, s) && !s.reconciled;
      var n :| 0 <= n < |after.settlements| && after.settlements[n] == s;
      assert Missed(d, c, n);
    }
  }

  // ---------------------------------------------------------------- every interleaving

  predicate Late(d: Desk, e: Event) { LateInsert(d, e) || LateClose(d, e) }

  lemma NextKeeps(d: Desk, e: Event)
    requires DeskInv(d)
    ensures DeskInv(Next(d, e))
    ensures NonePending(d.st) ==> (NonePending(Next(d, e).st) <==> !Late(d, e))
  {
    hide DeskInv, NonePending, ReadProof, Insert, LockRun, ReadItem, CloseRun, Step, MayInsert, MayClose;
    match e
    case EvOp(op) => if Admitted(d, op) { OpKeeps(d, op); }
    case EvReadProof(payment, reference, amount, currency, allowed) =>
      ReadProofKeeps(d, payment, reference, amount, currency, allowed);
      ReadsKeepRows(d, e);
    case EvInsert(a) => InsertKeeps(d, a);
    case EvDropSettling(a) => if a < |d.settlings| { EndSettlingKeeps(d, a); }
    case EvLockRun(run) => LockRunKeeps(d, run); ReadsKeepRows(d, e);
    case EvReadItem(c) => ReadItemKeeps(d, c); ReadsKeepRows(d, e);
    case EvClose(c) => CloseKeepsDesk(d, c);
    case EvDropClosing(c) => if c < |d.closings| { DropClosingKeeps(d, c); }
  }

  lemma CloseKeepsDesk(d: Desk, c: nat)
    requires DeskInv(d)
    ensures DeskInv(CloseRun(d, c))
    ensures NonePending(d.st) ==> (NonePending(CloseRun(d, c).st) <==> !LateClose(d, EvClose(c)))
  {
    if MayClose(d, c) {
      CloseKeepsSettlings(d, c);
      CloseKeepsRest(d, c);
      hide CoreInv, LogInv, SettlingsInv, ClosingsInv, NonePending;
      if NonePending(d.st) { CloseIsLateIff(d, c); }
    }
  }

  /** Reading and locking change no row. */
  lemma ReadsKeepRows(d: Desk, e: Event)
    requires e.EvReadProof? || e.EvLockRun? || e.EvReadItem?
    ensures Next(d, e).st == d.st
  {
    hide Settle, FindRun;
  }

  /** After every event of the run, a settlement is reconciled exactly when a closed run proves it. */
  ghost predicate AlwaysReconciled(events: seq<Event>) {
    && (forall s :: s in RunAll(IDLE, events).st.settlements ==>
        (s.reconciled <==> Proved(RunAll(IDLE, events).st.runs, s)))
    && (events != [] ==> AlwaysReconciled(events[..|events| - 1]))
  }

  predicate NoneLate(events: seq<Event>) {
    events != [] ==>
        NoneLate(events[..|events| - 1]) && !Late(RunAll(IDLE, events[..|events| - 1]), events[|events| - 1])
  }

  lemma {:induction false} RunKeepsDesk(events: seq<Event>)
    ensures DeskInv(RunAll(IDLE, events))
  {
    if events != [] {
      RunKeepsDesk(events[..|events| - 1]);
      hide DeskInv, Next;
      NextKeeps(RunAll(IDLE, events[..|events| - 1]), events[|events| - 1]);
    }
  }

  lemma PendingMeans(st: State)
    requires CoreInv(st)
    ensures NonePending(st) <==> forall s :: s in st.settlements ==> (s.reconciled <==> Proved(st.runs, s))
  {
    hide IntentsInv, RunInv, Proved, SettlementInv;
    forall s | s in st.settlements ensures s.reconciled ==> Proved(st.runs, s) {
      ReconciledIsProved(st.intents, st.runs, s);
    }
  }

  /** Main result, over every interleaving of both halves of settlings and closings with everything else: a
      settlement is reconciled exactly when a closed run lists its payment, at all times, if and only if no
      settling commits after it was overtaken by the closing of a run that lists its payment, and no closing
      commits after it was overtaken by the settling of a payment that it lists. */
  lemma {:induction false} AlwaysReconciledIff(events: seq<Event>)
    ensures AlwaysReconciled(events) <==> NoneLate(events)
    ensures AlwaysReconciled(events) ==> NonePending(RunAll(IDLE, events).st)
  {
    RunKeepsDesk(events);
    var d := RunAll(IDLE, events);
    if events == [] {
      hide Proved;
    } else {
      var init, e := events[..|events| - 1], events[|events| - 1];
      AlwaysReconciledIff(init);
      RunKeepsDesk(init);
      hide Next, Late, Proved, LogInv, SettlingsInv, ClosingsInv, CoreInv, NonePending;
      PendingMeans(d.st);
      NextKeeps(RunAll(IDLE, init), e);
    }
  }

  /** Whatever overlaps: a reconciled settlement is proved by the closed run that it names, no payment is
      settled twice, and every settlement is of exactly its payment's amount. */
  lemma NeverUnproved(events: seq<Event>)
    ensures var st := RunAll(IDLE, events).st;
            && (forall s :: s in st.settlements && s.reconciled ==> Proved(st.runs, s))
            && (forall s :: s in st.settlements ==>
                Backed(st.intents, s.payment, s.provider, s.market, s.amount, s.currency))
            && (forall i, j :: 0 <= i < j < |st.settlements| ==> st.settlements[i].payment != st.settlements[j].payment)
  {
    RunKeepsDesk(events);
    var st := RunAll(IDLE, events).st;
    hide Proved, Backed, RunAll, LogInv, SettlingsInv, ClosingsInv, IntentsInv, RunInv;
    forall s | s in st.settlements
      ensures (s.reconciled ==> Proved(st.runs, s))
      ensures Backed(st.intents, s.payment, s.provider, s.market, s.amount, s.currency)
    {
      assert SettlementInv(st.intents, st.runs, s);
      ReconciledIsProved(st.intents, st.runs, s);
    }
  }
}
