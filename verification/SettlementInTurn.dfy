/** When settlings and closings keep out of each other's way, and what is left when they do not. */
module SettlementInTurn {
  import opened Outcomes
  import opened Payments
  import opened Reconciliation
  import opened SettlementOverlap

  // ---------------------------------------------------------------- uninterrupted halves

  function ReadItems(d: Desk, c: nat, n: nat): Desk {
    if n == 0 then d else ReadItem(ReadItems(d, c, n - 1), c)
  }

  /** Both halves of a settling, with nothing in between, are the whole call. */
  lemma SettleAlone(d: Desk, payment: string, reference: string, amount: int, currency: string, allowed: bool)
    requires !PaymentLocked(d, payment)
    ensures Insert(ReadProof(d, payment, reference, amount, currency, allowed), |d.settlings|).st
              == Step(d.st, OpSettle(payment, reference, amount, currency, allowed))
  {
    hide FirstProof, FindIntent, FindSettlement, Settled;
  }

  function Repeat(n: nat, x: nat): (r: seq<nat>)
    ensures |r| == n && forall k :: 0 <= k < n ==> r[k] == x
  {
    if n == 0 then [] else Repeat(n - 1, x) + [x]
  }

  /** The state after n items are read: the closing knows as many settlements as there are, for each. */
  lemma {:induction false} ReadItemsMeans(d: Desk, c: nat, n: nat)
    requires c < |d.closings| && d.closings[c].open && d.closings[c].run < |d.st.runs| && d.closings[c].readAt == []
    requires n <= |d.st.runs[d.closings[c].run].items|
    ensures ReadItems(d, c, n)
              == d.(closings := d.closings[c := d.closings[c].(readAt := Repeat(n, |d.st.settlements|))])
  {
    if n > 0 { ReadItemsMeans(d, c, n - 1); }
  }

  /** A closing that read everything at once marks what the run lists. */
  lemma SeenAtOnce(settlements: seq<Settlement>, run: Recon)
    ensures MarkSeen(settlements, run, Repeat(|run.items|, |settlements|)) == MarkAll(settlements, run)
  {
    var readAt := Repeat(|run.items|, |settlements|);
    forall n | 0 <= n < |settlements|
      ensures Lists(run, settlements[n].payment) <==> Seen(run, readAt, settlements[n].payment, n)
    {
      if Lists(run, settlements[n].payment) {
        ListedIsSeen(run, readAt, settlements[n].payment, n);
      }
    }
  }

  /** All the steps of a closing, with nothing in between, are the whole call. */
  lemma CloseAlone(d: Desk, reference: string)
    requires var k := FindRun(d.st.runs, reference); k < |d.st.runs| && !RunLocked(d, k)
    ensures var n := |d.st.runs[FindRun(d.st.runs, reference)].items|;
            CloseRun(ReadItems(LockRun(d, reference), |d.closings|, n), |d.closings|).st
              == Step(d.st, OpClose(reference))
  {
    var k, c := FindRun(d.st.runs, reference), |d.closings|;
    var locked, n := LockRun(d, reference), |d.st.runs[k].items|;
    hide FindRun, Seen, Lists;
    if locked == d {
      NothingToRead(d, n);
    } else {
      ReadItemsMeans(locked, c, n);
      SeenAtOnce(d.st.settlements, d.st.runs[k].(status := Closed));
    }
  }

  lemma {:induction false} NothingToRead(d: Desk, n: nat)
    ensures ReadItems(d, |d.closings|, n) == d
  {
    if n > 0 { NothingToRead(d, n - 1); }
  }

  // ---------------------------------------------------------------- one at a time

  /** No settling of a payment begins while a run that lists it is being closed, and no closing of a run while a
      payment that it lists is being settled. */
  predicate InTurn(d: Desk, e: Event) {
    && (e.EvReadProof? ==> forall c :: 0 <= c < |d.closings| && InFlight(d, c) ==>
          !Lists(d.st.runs[d.closings[c].run], e.payment))
    && (e.EvLockRun? && FindRun(d.st.runs, e.run) < |d.st.runs| ==>
          forall a :: 0 <= a < |d.settlings| && d.settlings[a].open ==>
            !Lists(d.st.runs[FindRun(d.st.runs, e.run)], d.settlings[a].row.payment))
  }

  predicate InFlight(d: Desk, c: nat) { c < |d.closings| && d.closings[c].open && d.closings[c].run < |d.st.runs| }

  predicate NoneOverlap(events: seq<Event>) {
    events != [] ==>
      NoneOverlap(events[..|events| - 1]) && InTurn(RunAll(IDLE, events[..|events| - 1]), events[|events| - 1])
  }

  /** No run that lists the payment has been closed since the settling looked, and none is being closed. */
  ghost predicate Undisturbed(d: Desk, a: Settling) {
    && (forall c :: 0 <= c < |d.closings| && InFlight(d, c) ==>
          !Lists(d.st.runs[d.closings[c].run], a.row.payment))
    && forall j :: a.since <= j < |d.closed| && d.closed[j] < |d.st.runs| ==>
         !Lists(d.st.runs[d.closed[j]], a.row.payment)
  }

  /** The closing has looked after every settlement that it should mark. */
  ghost predicate UpToDate(d: Desk, c: nat)
    requires InFlight(d, c)
  {
    forall q, n :: 0 <= q < |d.closings[c].readAt| && 0 <= n < |d.st.settlements| ==>
      Lists(d.st.runs[d.closings[c].run], d.st.settlements[n].payment) ==> n < d.closings[c].readAt[q]
  }

  ghost predicate TurnInv(d: Desk) {
    && (forall a :: 0 <= a < |d.settlings| && d.settlings[a].open ==> Undisturbed(d, d.settlings[a]))
    && forall c :: 0 <= c < |d.closings| && InFlight(d, c) ==> UpToDate(d, c)
  }

  lemma NoLateInsert(d: Desk, e: Event)
    requires TurnInv(d)
    ensures !LateInsert(d, e)
  {
    if e.EvInsert? && MayInsert(d, e.a) {
      var s := d.settlings[e.a];
      assert Undisturbed(d, s);
      hide TurnInv, Lists;
      forall j | s.since <= j < |d.closed| && d.closed[j] < |d.st.runs|
        ensures !ProvesRow(d.st.runs[d.closed[j]], s.row)
      {
      }
    }
  }

  /** What a closed run lists has been looked up by its closing. */
  lemma ListedIsSeen(run: Recon, readAt: seq<nat>, payment: string, n: nat)
    requires |readAt| == |run.items| && Lists(run, payment) && forall q :: 0 <= q < |readAt| ==> n < readAt[q]
    ensures Seen(run, readAt, payment, n)
  {
    var i :| i in run.items && i.class_ == Matched && i.internal == Some(payment);
    var q :| 0 <= q < |run.items| && run.items[q] == i;
    assert n < readAt[q];
  }

  lemma NoLateClose(d: Desk, e: Event)
    requires TurnInv(d)
    ensures !LateClose(d, e)
  {
    if e.EvClose? && MayClose(d, e.c) {
      assert InFlight(d, e.c);
      UpToDateOf(d, e.c);
      var run, readAt := ClosedRun(d, e.c), d.closings[e.c].readAt;
      hide TurnInv, Seen, Lists;
      forall n | 0 <= n < |d.st.settlements| ensures !Missed(d, e.c, n) {
        var payment := d.st.settlements[n].payment;
        ListsItems(run, d.st.runs[d.closings[e.c].run], payment);
        if Lists(run, payment) { ListedIsSeen(run, readAt, payment, n); }
      }
    }
  }

  lemma UpToDateOf(d: Desk, c: nat)
    requires TurnInv(d) && InFlight(d, c)
    ensures UpToDate(d, c)
  {
  }

  /** Runs and settlements that are there stay; then both halves of the invariant stay. */
  lemma OpKeepsTurn(d: Desk, after: State)
    requires DeskInv(d) && TurnInv(d) && Extended(d.st, after)
    ensures TurnInv(d.(st := after))
  {
    var later := d.(st := after);
    RunsInRange(d);
    hide DeskInv, Lists, Extends;
    forall a | 0 <= a < |d.settlings| && d.settlings[a].open ensures Undisturbed(later, d.settlings[a]) {
      assert Undisturbed(d, d.settlings[a]);
      forall c | 0 <= c < |d.closings| && InFlight(later, c)
        ensures !Lists(after.runs[d.closings[c].run], d.settlings[a].row.payment)
      {
        assert InFlight(d, c);
      }
    }
    forall c | 0 <= c < |d.closings| && InFlight(later, c) ensures UpToDate(later, c) {
      assert InFlight(d, c) && UpToDate(d, c);
    }
  }

  lemma RunsInRange(d: Desk)
    requires DeskInv(d)
    ensures forall c :: 0 <= c < |d.closings| && d.closings[c].open ==> d.closings[c].run < |d.st.runs|
    ensures forall j :: 0 <= j < |d.closed| ==> d.closed[j] < |d.st.runs|
  {
    hide CoreInv, SettlingsInv;
    forall c | 0 <= c < |d.closings| && d.closings[c].open ensures d.closings[c].run < |d.st.runs| {
      assert ClosingInv(d, d.closings[c]);
    }
  }

  lemma ReadProofKeepsTurn(d: Desk, e: Event)
    requires TurnInv(d) && e.EvReadProof? && InTurn(d, e)
    ensures TurnInv(Next(d, e))
  {
    hide Lists;
    var after := Next(d, e);
    ReadsKeepRows(d, e);
    NewRowPays(d, e);
    hide ReadProof;
    forall a | 0 <= a < |after.settlings| && after.settlings[a].open ensures Undisturbed(after, after.settlings[a]) {
      forall c | 0 <= c < |after.closings| && InFlight(after, c)
        ensures !Lists(after.st.runs[after.closings[c].run], after.settlings[a].row.payment)
      {
        assert InFlight(d, c);
      }
      if a < |d.settlings| { assert Undisturbed(d, d.settlings[a]); }
    }
    forall c | 0 <= c < |after.closings| && InFlight(after, c) ensures UpToDate(after, c) {
      assert InFlight(d, c) && UpToDate(d, c);
    }
  }

  lemma NewRowPays(d: Desk, e: Event)
    requires e.EvReadProof?
    ensures var after := Next(d, e);
            after == d || (|after.settlings| == |d.settlings| + 1
                           && after == d.(settlings := d.settlings + [after.settlings[|d.settlings|]])
                           && after.settlings[|d.settlings|].row.payment == e.payment
                           && after.settlings[|d.settlings|].since == |d.closed|)
  {
    hide FindSettlement, FirstProof;
  }

  lemma InsertKeepsTurn(d: Desk, a: nat)
    requires TurnInv(d)
    ensures TurnInv(Insert(d, a))
  {
    hide Lists, FindSettlement;
    var after := Insert(d, a);
    forall b | 0 <= b < |after.settlings| && after.settlings[b].open ensures Undisturbed(after, after.settlings[b]) {
      assert Undisturbed(d, d.settlings[b]);
      forall c | 0 <= c < |after.closings| && InFlight(after, c)
        ensures !Lists(after.st.runs[after.closings[c].run], after.settlings[b].row.payment)
      {
        assert InFlight(d, c);
      }
    }
    forall c | 0 <= c < |after.closings| && InFlight(after, c) ensures UpToDate(after, c) {
      assert InFlight(d, c) && UpToDate(d, c);
      if MayInsert(d, a) { assert Undisturbed(d, d.settlings[a]); }
    }
  }

  lemma LockRunKeepsTurn(d: Desk, e: Event)
    requires TurnInv(d) && e.EvLockRun? && InTurn(d, e)
    ensures TurnInv(Next(d, e))
  {
    hide Lists, FindRun;
    var after := Next(d, e);
    forall a | 0 <= a < |after.settlings| && after.settlings[a].open ensures Undisturbed(after, after.settlings[a]) {
      assert Undisturbed(d, d.settlings[a]);
      forall c | 0 <= c < |after.closings| && InFlight(after, c)
        ensures !Lists(after.st.runs[after.closings[c].run], after.settlings[a].row.payment)
      {
        if c < |d.closings| { assert InFlight(d, c); }
      }
    }
    forall c | 0 <= c < |after.closings| && InFlight(after, c) ensures UpToDate(after, c) {
      if c < |d.closings| { assert InFlight(d, c) && UpToDate(d, c); }
    }
  }

  /** The steps of a closing: what it adds to the log, or what it reads, concerns no payment that is being settled. */
  predicate ClosingEvent(e: Event) { e.EvReadItem? || e.EvClose? || e.EvDropClosing? }

  /** What they leave alone. */
  ghost predicate SameLists(d: Desk, after: Desk) {
    && after.settlings == d.settlings && |after.closings| == |d.closings| && |after.st.runs| == |d.st.runs|
    && (forall k, payment :: 0 <= k < |d.st.runs| ==>
          (Lists(after.st.runs[k], payment) <==> Lists(d.st.runs[k], payment)))
    && (forall c :: 0 <= c < |d.closings| && InFlight(after, c) ==>
          InFlight(d, c) && after.closings[c].run == d.closings[c].run)
    && |after.st.settlements| == |d.st.settlements|
    && forall n :: 0 <= n < |d.st.settlements| ==> after.st.settlements[n].payment == d.st.settlements[n].payment
  }

  lemma ClosingKeepsLists(d: Desk, e: Event)
    requires ClosingEvent(e)
    ensures SameLists(d, Next(d, e))
  {
    SamePayments(d, e);
    hide Seen, MarkSeen;
    var after := Next(d, e);
    assert |after.st.runs| == |d.st.runs|;
    forall k, payment | 0 <= k < |d.st.runs|
      ensures Lists(after.st.runs[k], payment) <==> Lists(d.st.runs[k], payment)
    {
      assert after.st.runs[k].items == d.st.runs[k].items;
    }
  }

  /** The log grows by the run of an open closing, at most. */
  lemma ClosingLog(d: Desk, e: Event)
    requires ClosingEvent(e)
    ensures var after := Next(d, e);
            after.closed == d.closed
            || (InFlight(d, e.c) && after.closed == d.closed + [d.closings[e.c].run])
  {
    hide MarkSeen;
  }

  lemma UndisturbedStays(d: Desk, e: Event, a: Settling)
    requires ClosingEvent(e) && Undisturbed(d, a) && forall j :: 0 <= j < |d.closed| ==> d.closed[j] < |d.st.runs|
    ensures Undisturbed(Next(d, e), a)
  {
    ClosingKeepsLists(d, e);
    ClosingLog(d, e);
    hide Next, Lists;
    var after := Next(d, e);
    forall j | a.since <= j < |after.closed| && after.closed[j] < |after.st.runs|
      ensures !Lists(after.st.runs[after.closed[j]], a.row.payment)
    {
      if j < |d.closed| { assert after.closed[j] == d.closed[j]; }
    }
  }

  lemma UpToDateStays(d: Desk, e: Event, c: nat)
    requires ClosingEvent(e) && InFlight(Next(d, e), c) && InFlight(d, c) && UpToDate(d, c)
    ensures UpToDate(Next(d, e), c)
  {
    ClosingKeepsLists(d, e);
    ReadsSoFar(d, e, c);
    hide Next, Lists;
  }

  lemma ReadsSoFar(d: Desk, e: Event, c: nat)
    requires ClosingEvent(e) && c < |d.closings|
    ensures var after := Next(d, e);
            |after.closings| == |d.closings|
            && (after.closings[c].readAt == d.closings[c].readAt
                || after.closings[c].readAt == d.closings[c].readAt + [|d.st.settlements|])
  {
    hide MarkSeen;
  }

  lemma ClosingKeepsTurn(d: Desk, e: Event)
    requires DeskInv(d) && TurnInv(d) && ClosingEvent(e)
    ensures TurnInv(Next(d, e))
  {
    RunsInRange(d);
    ClosingKeepsLists(d, e);
    hide DeskInv, Next;
    var after := Next(d, e);
    forall a | 0 <= a < |after.settlings| && after.settlings[a].open ensures Undisturbed(after, after.settlings[a]) {
      UndisturbedStays(d, e, d.settlings[a]);
    }
    forall c | 0 <= c < |after.closings| && InFlight(after, c) ensures UpToDate(after, c) {
      UpToDateStays(d, e, c);
    }
  }

  lemma ListsItems(run: Recon, other: Recon, payment: string)
    requires run.items == other.items
    ensures Lists(run, payment) <==> Lists(other, payment)
  {
  }

  lemma SamePayments(d: Desk, e: Event)
    requires ClosingEvent(e)
    ensures var after := Next(d, e);
            |after.st.settlements| == |d.st.settlements|
            && forall n :: 0 <= n < |d.st.settlements| ==>
                 after.st.settlements[n].payment == d.st.settlements[n].payment
  {
    hide Seen, Lists;
  }

  lemma NextKeepsTurn(d: Desk, e: Event)
    requires DeskInv(d) && TurnInv(d) && InTurn(d, e)
    ensures TurnInv(Next(d, e))
  {
    match e
    case EvOp(op) =>
      hide TurnInv;
      if Admitted(d, op) {
        OpExtends(d, op);
        hide DeskInv, Step, Extended;
        OpKeepsTurn(d, Step(d.st, op));
      }
    case EvReadProof(_, _, _, _, _) => hide DeskInv, TurnInv; ReadProofKeepsTurn(d, e);
    case EvInsert(a) => hide DeskInv, TurnInv; InsertKeepsTurn(d, a);
    case EvDropSettling(a) => hide DeskInv, Lists; DropKeepsTurn(d, a);
    case EvLockRun(_) => hide DeskInv, TurnInv; LockRunKeepsTurn(d, e);
    case EvReadItem(_) => hide DeskInv, TurnInv; ClosingKeepsTurn(d, e);
    case EvClose(_) => hide DeskInv, TurnInv; ClosingKeepsTurn(d, e);
    case EvDropClosing(_) => hide DeskInv, TurnInv; ClosingKeepsTurn(d, e);
  }

  lemma DropKeepsTurn(d: Desk, a: nat)
    requires TurnInv(d)
    ensures TurnInv(Next(d, EvDropSettling(a)))
  {
    hide Lists;
    var after := Next(d, EvDropSettling(a));
    forall b | 0 <= b < |after.settlings| && after.settlings[b].open ensures Undisturbed(after, after.settlings[b]) {
      assert Undisturbed(d, d.settlings[b]);
      forall c | 0 <= c < |after.closings| && InFlight(after, c)
        ensures !Lists(after.st.runs[after.closings[c].run], after.settlings[b].row.payment)
      {
        assert InFlight(d, c);
      }
    }
    forall c | 0 <= c < |after.closings| && InFlight(after, c) ensures UpToDate(after, c) {
      assert InFlight(d, c) && UpToDate(d, c);
    }
  }

  /** When no settling overlaps a closing of a run that lists its payment, settlements are reconciled exactly when
      they are proved, at all times. */
  lemma {:induction false} OneByOneReconciles(events: seq<Event>)
    requires NoneOverlap(events)
    ensures TurnInv(RunAll(IDLE, events)) && NoneLate(events) && AlwaysReconciled(events)
  {
    AlwaysReconciledIff(events);
    if events != [] {
      var init, e := events[..|events| - 1], events[|events| - 1];
      OneByOneReconciles(init);
      RunKeepsDesk(init);
      hide DeskInv, TurnInv, InTurn, Next, LateInsert, LateClose, AlwaysReconciled;
      NoLateInsert(RunAll(IDLE, init), e);
      NoLateClose(RunAll(IDLE, init), e);
      assert !Late(RunAll(IDLE, init), e);
      NextKeepsTurn(RunAll(IDLE, init), e);
    }
  }

  // ---------------------------------------------------------------- a settling that overlaps a closing

  /** The settling looks for a closed run, the closing looks for settlements, and both commit. */
  function Overlap(d: Desk, payment: string, reference: string, amount: int, currency: string, run: string): Desk {
    var reading := LockRun(ReadProof(d, payment, reference, amount, currency, true), run);
    var items := if FindRun(d.st.runs, run) < |d.st.runs| then |d.st.runs[FindRun(d.st.runs, run)].items| else 0;
    Insert(CloseRun(ReadItems(reading, |d.closings|, items), |d.closings|), |d.settlings|)
  }

  /** A payment that can be settled and that no run proves yet, and a matched run that lists it. */
  predicate CanCross(d: Desk, payment: string, reference: string, amount: int, currency: string, run: string) {
    var k := FindRun(d.st.runs, run);
    var after := Settle(d.st, payment, reference, amount, currency, true);
    && !PaymentLocked(d, payment) && after.Ok? && |after.value.settlements| == |d.st.settlements| + 1
    && k < |d.st.runs| && !RunLocked(d, k) && d.st.runs[k].status == AllMatched && d.st.runs[k].exceptions == 0
    && var row := after.value.settlements[|d.st.settlements|];
       !row.reconciled && ProvesRow(d.st.runs[k].(status := Closed), row)
  }

  /** The closing, once the settling has looked: it marks what there is, and the settling is still open. */
  lemma CrossedClosing(d: Desk, read: Desk, run: string)
    requires read.st == d.st && read.closings == d.closings && FindRun(d.st.runs, run) < |d.st.runs|
    requires LockRun(read, run) != read
    ensures var k := FindRun(d.st.runs, run);
            var closed := CloseRun(ReadItems(LockRun(read, run), |d.closings|, |d.st.runs[k].items|), |d.closings|);
            && closed.settlings == read.settlings
            && closed.st == d.st.(runs := d.st.runs[k := d.st.runs[k].(status := Closed)],
                                  settlements := MarkAll(d.st.settlements, d.st.runs[k].(status := Closed)))
  {
    var k, c := FindRun(d.st.runs, run), |d.closings|;
    hide FindRun, Seen, Lists, RunLocked;
    ReadItemsMeans(LockRun(read, run), c, |d.st.runs[k].items|);
    SeenAtOnce(d.st.settlements, d.st.runs[k].(status := Closed));
  }

  /** The result of the overlap: the run is closed, and the settlement that it lists is not reconciled. */
  lemma CrossedDesk(d: Desk, payment: string, reference: string, amount: int, currency: string, run: string)
    requires CanCross(d, payment, reference, amount, currency, run)
    ensures var k := FindRun(d.st.runs, run);
            var row := Settle(d.st, payment, reference, amount, currency, true).value.settlements[|d.st.settlements|];
            Overlap(d, payment, reference, amount, currency, run).st
              == d.st.(runs := d.st.runs[k := d.st.runs[k].(status := Closed)],
                       settlements := MarkAll(d.st.settlements, d.st.runs[k].(status := Closed)) + [row])
  {
    var k, read := FindRun(d.st.runs, run), ReadProof(d, payment, reference, amount, currency, true);
    assert read.st == d.st && read.closings == d.closings;
    CrossedClosing(d, read, run);
    NewRowIsFree(d, payment, reference, amount, currency);
    SameReferences(d.st.settlements, d.st.runs[k].(status := Closed), reference);
    hide FindRun, Settle, FindSettlement, CloseRun, ReadItems, ProvesRow;
  }

  lemma NewRowIsFree(d: Desk, payment: string, reference: string, amount: int, currency: string)
    requires var after := Settle(d.st, payment, reference, amount, currency, true);
             after.Ok? && |after.value.settlements| == |d.st.settlements| + 1
    ensures FindSettlement(d.st.settlements, reference) == |d.st.settlements|
    ensures var row := Settle(d.st, payment, reference, amount, currency, true).value.settlements[|d.st.settlements|];
            row.reference == reference && row.payment == payment && row.amount == amount && row.currency == currency
  {
    hide FindSettlement, FirstProof, Settled;
  }

  lemma SameReferences(settlements: seq<Settlement>, run: Recon, reference: string)
    requires FindSettlement(settlements, reference) == |settlements|
    ensures FindSettlement(MarkAll(settlements, run), reference) == |settlements|
  {
    var marked := MarkAll(settlements, run);
    forall n | 0 <= n < |settlements| ensures marked[n].reference == settlements[n].reference {
      MarkIdentity(settlements[n], run);
    }
  }

  /** The settlement of the payment is proved and not reconciled. */
  ghost predicate PendingFor(st: State, n: nat, payment: string) {
    && n < |st.settlements| && st.settlements[n].payment == payment
    && !st.settlements[n].reconciled && Proved(st.runs, st.settlements[n])
  }

  /** The settlement stays pending: the run that lists its payment is closed, and settling or closing again
      answers with the state as it is. */
  lemma OverlapLeavesPending(d: Desk, payment: string, reference: string, amount: int, currency: string, run: string)
    requires DeskInv(d) && CanCross(d, payment, reference, amount, currency, run)
    ensures var st := Overlap(d, payment, reference, amount, currency, run).st;
            && |st.settlements| == |d.st.settlements| + 1 && PendingFor(st, |d.st.settlements|, payment)
            && Settle(st, payment, reference, amount, currency, true) == Ok(st) && Close(st, run) == Ok(st)
  {
    var k, st := FindRun(d.st.runs, run), Overlap(d, payment, reference, amount, currency, run).st;
    var row := Settle(d.st, payment, reference, amount, currency, true).value.settlements[|d.st.settlements|];
    CrossedDesk(d, payment, reference, amount, currency, run);
    NewRowIsFree(d, payment, reference, amount, currency);
    SameReferences(d.st.settlements, d.st.runs[k].(status := Closed), reference);
    assert st.runs[k] in st.runs;
    RunReferences(d);
    hide Overlap, MarkAll, DeskInv, FindIntent;
    LastFound(MarkAll(d.st.settlements, st.runs[k]), row);
    SameRun(d.st.runs, k, st.runs[k]);
    CloseAgain(st, run);
    hide FindRun, FindSettlement, ProvesRow, Close;
    SettleAgain(d.st, st, payment, reference, amount, currency);
  }

  lemma RunReferences(d: Desk)
    requires DeskInv(d)
    ensures forall i, j :: 0 <= i < j < |d.st.runs| ==> d.st.runs[i].reference != d.st.runs[j].reference
  {
  }

  lemma CloseAgain(st: State, run: string)
    requires var k := FindRun(st.runs, run); k < |st.runs| && st.runs[k].status == Closed
    ensures Close(st, run) == Ok(st)
  {
  }

  lemma SettleAgain(before: State, st: State, payment: string, reference: string, amount: int, currency: string)
    requires Settle(before, payment, reference, amount, currency, true).Ok? && st.intents == before.intents
    requires var j := FindSettlement(st.settlements, reference);
             j < |st.settlements| && st.settlements[j].payment == payment && st.settlements[j].amount == amount
             && st.settlements[j].currency == currency
             && st.settlements[j].provider == before.intents[FindIntent(before.intents, payment)].provider
    ensures Settle(st, payment, reference, amount, currency, true) == Ok(st)
  {
    hide FindIntent, FindSettlement, NewSettlement, Settled;
  }

  lemma LastFound(settlements: seq<Settlement>, row: Settlement)
    requires FindSettlement(settlements, row.reference) == |settlements|
    ensures FindSettlement(settlements + [row], row.reference) == |settlements|
  {
    var all := settlements + [row];
    assert all[|settlements|] == row && forall n :: 0 <= n < |settlements| ==> all[n] == settlements[n];
  }

  lemma SameRun(runs: seq<Recon>, k: nat, run: Recon)
    requires k < |runs| && runs[k].reference == run.reference
    requires forall i, j :: 0 <= i < j < |runs| ==> runs[i].reference != runs[j].reference
    ensures FindRun(runs[k := run], run.reference) == k
  {
    var after := runs[k := run];
    assert after[k] == run;
    forall j | 0 <= j < |runs| && j != k ensures after[j].reference != run.reference {
      assert runs[if j < k then j else k].reference != runs[if j < k then k else j].reference;
    }
  }

  // ---------------------------------------------------------------- and it stays pending

  /** A run outside the old log has been closed since, and it proves the settlement. */
  ghost predicate ProvedSince(d: Desk, after: Desk, s: Settlement) {
    exists j :: |d.closed| <= j < |after.closed| && after.closed[j] < |after.st.runs| && after.closed[j] !in d.closed
                && ProvesRow(after.st.runs[after.closed[j]], s)
  }

  /** What is closed stays closed, as it is; and the log only grows. */
  ghost predicate Later(d: Desk, after: Desk) {
    && |d.closed| <= |after.closed| && after.closed[..|d.closed|] == d.closed
    && (forall j :: |d.closed| <= j < |after.closed| ==> after.closed[j] !in d.closed)
    && |d.st.runs| <= |after.st.runs|
    && (forall k :: 0 <= k < |d.st.runs| && k in d.closed ==> after.st.runs[k] == d.st.runs[k])
    && |d.st.settlements| <= |after.st.settlements|
  }

  lemma StepIsLater(d: Desk, e: Event)
    requires DeskInv(d)
    ensures Later(d, Next(d, e))
  {
    match e
    case EvOp(op) => hide Step, DeskInv, Extends; if Admitted(d, op) { OpExtends(d, op); }
    case EvReadProof(_, _, _, _, _) => hide DeskInv, ReadProof; ReadsKeepRows(d, e); SameLog(d, e);
    case EvInsert(_) => hide DeskInv, MayInsert;
    case EvDropSettling(_) => hide DeskInv;
    case EvLockRun(_) => hide DeskInv, LockRun; ReadsKeepRows(d, e); SameLog(d, e);
    case EvReadItem(_) => hide DeskInv;
    case EvClose(c) =>
      if MayClose(d, c) {
        ClosingOf(d, c);
        hide DeskInv, MarkSeen;
      }
    case EvDropClosing(_) => hide DeskInv;
  }

  lemma SameLog(d: Desk, e: Event)
    requires e.EvReadProof? || e.EvLockRun?
    ensures Next(d, e).closed == d.closed
  {
    hide Settle, FindRun;
  }

  /** A pending row changes only when a closing proves it. */
  lemma StepOnPending(d: Desk, e: Event, n: nat)
    requires DeskInv(d) && n < |d.st.settlements| && !d.st.settlements[n].reconciled
    ensures var after := Next(d, e);
            n < |after.st.settlements|
            && (after.st.settlements[n] == d.st.settlements[n] || ProvedSince(d, after, d.st.settlements[n]))
  {
    StepIsLater(d, e);
    hide Later;
    match e
    case EvOp(op) => hide Step, DeskInv, Extends; if Admitted(d, op) { OpExtends(d, op); }
    case EvReadProof(_, _, _, _, _) => hide DeskInv, ReadProof; ReadsKeepRows(d, e);
    case EvInsert(_) => hide DeskInv, MayInsert;
    case EvDropSettling(_) => hide DeskInv;
    case EvLockRun(_) => hide DeskInv, LockRun; ReadsKeepRows(d, e);
    case EvReadItem(_) => hide DeskInv;
    case EvClose(c) => if MayClose(d, c) { CloseOnPending(d, c, n); }
    case EvDropClosing(_) => hide DeskInv;
  }

  lemma CloseOnPending(d: Desk, c: nat, n: nat)
    requires DeskInv(d) && MayClose(d, c) && n < |d.st.settlements| && !d.st.settlements[n].reconciled
    ensures var after := CloseRun(d, c);
            after.st.settlements[n] == d.st.settlements[n] || ProvedSince(d, after, d.st.settlements[n])
  {
    ClosingOf(d, c);
    ClosedRunOf(d, c);
    var s, run, after := d.st.settlements[n], ClosedRun(d, c), CloseRun(d, c);
    assert Backed(d.st.intents, s.payment, s.provider, s.market, s.amount, s.currency) by {
      assert s in d.st.settlements && SettlementInv(d.st.intents, d.st.runs, s);
    }
    MarkMeansProof(d.st.intents, run, s);
    hide DeskInv, Backed, RunInv, IntentsInv, Seen, Proves, Mark;
    if after.st.settlements[n] != s {
      assert after.closed[|d.closed|] == d.closings[c].run && after.st.runs[d.closings[c].run] == run;
    }
  }

  /** Over every later interleaving: a pending settlement stays exactly as it is until another run that lists its
      payment is closed. The runs that are closed already never change it. */
  lemma {:induction false} PendingStays(d: Desk, events: seq<Event>, n: nat)
    requires DeskInv(d) && n < |d.st.settlements| && !d.st.settlements[n].reconciled
    ensures var after := RunAll(d, events);
            && DeskInv(after) && Later(d, after) && n < |after.st.settlements|
            && (after.st.settlements[n] == d.st.settlements[n] || ProvedSince(d, after, d.st.settlements[n]))
  {
    if events != [] {
      var init, e := events[..|events| - 1], events[|events| - 1];
      PendingStays(d, init, n);
      var mid := RunAll(d, init);
      NextKeeps(mid, e);
      StepIsLater(mid, e);
      if mid.st.settlements[n] == d.st.settlements[n] { StepOnPending(mid, e, n); }
      hide DeskInv, Next, Later, ProvedSince;
      LaterOn(d, mid, Next(mid, e), d.st.settlements[n]);
    }
  }

  lemma LaterOn(d: Desk, mid: Desk, after: Desk, s: Settlement)
    requires Later(d, mid) && Later(mid, after) && forall j :: 0 <= j < |mid.closed| ==> mid.closed[j] < |mid.st.runs|
    ensures Later(d, after)
    ensures ProvedSince(d, mid, s) || ProvedSince(mid, after, s) ==> ProvedSince(d, after, s)
  {
    hide ProvesRow;
    forall j | 0 <= j < |mid.closed| ensures after.closed[j] == mid.closed[j] && mid.closed[j] in mid.closed {
      assert after.closed[..|mid.closed|][j] == after.closed[j];
    }
    forall j | 0 <= j < |d.closed| ensures mid.closed[j] == d.closed[j] {
      assert mid.closed[..|d.closed|][j] == mid.closed[j];
    }
    forall k | k in d.closed ensures k in mid.closed {
      var j :| 0 <= j < |d.closed| && d.closed[j] == k;
      assert mid.closed[j] == k;
    }
    assert after.closed[..|d.closed|] == d.closed;
    if ProvedSince(mid, after, s) {
      var j :| |mid.closed| <= j < |after.closed| && after.closed[j] < |after.st.runs| && after.closed[j] !in mid.closed
               && ProvesRow(after.st.runs[after.closed[j]], s);
    }
    if ProvedSince(d, mid, s) {
      var j :| |d.closed| <= j < |mid.closed| && mid.closed[j] < |mid.st.runs| && mid.closed[j] !in d.closed
               && ProvesRow(mid.st.runs[mid.closed[j]], s);
      assert after.st.runs[after.closed[j]] == mid.st.runs[mid.closed[j]];
    }
  }

  // ---------------------------------------------------------------- from empty tables

  const SHA: string := seq(64, _ => 'a')
  const PAID: Intent := Intent("p", "b", 1, "E", Some(1), Captured, Some("x"))
  const STATEMENT: Statement := Statement("b", 1, "E", "r", "s", SHA, [Row("x", 1, "E")], [])
  const LISTED: Recon := Recon("r", "b", 1, "E", "s", SHA, AllMatched, 1, 1, 0,
                               [Item("x", Some("p"), Some(1), 1, "E", Matched)])

  /** A payment is captured, and the provider's statement lists it. */
  const PREPARED: seq<Event> := [
    EvOp(OpCreate("p", "b", 1, "E", Some(1), true)), EvOp(OpAttach("p", "x", true)), EvOp(OpProcessing("p")),
    EvOp(OpCapture("p", true)), EvOp(OpReconcile(STATEMENT, true))]

  /** Then settling it overlaps closing the run. */
  const CROSSED: seq<Event> := PREPARED + [
    EvReadProof("p", "s1", 1, "E", true), EvLockRun("r"), EvReadItem(0), EvClose(0), EvInsert(0)]

  function SetUp(p: Intent): Desk { IDLE.(st := State([p], {}, [], [])) }

  lemma Then(d: Desk, events: seq<Event>, e: Event)
    ensures RunAll(d, events + [e]) == Next(RunAll(d, events), e)
  {
    assert (events + [e])[..|events|] == events;
  }

  lemma FiveEvents(d: Desk, a: Event, b: Event, c: Event, x: Event, y: Event)
    ensures RunAll(d, [a, b, c, x, y]) == Next(Next(Next(Next(Next(d, a), b), c), x), y)
  {
    hide Next;
    Then(d, [], a);
    Then(d, [a], b);
    Then(d, [a, b], c);
    Then(d, [a, b, c], x);
    Then(d, [a, b, c, x], y);
    assert [] + [a] == [a] && [a] + [b] == [a, b] && [a, b] + [c] == [a, b, c];
    assert [a, b, c] + [x] == [a, b, c, x] && [a, b, c, x] + [y] == [a, b, c, x, y];
  }

  lemma {:induction false} RunAppend(d: Desk, events: seq<Event>, more: seq<Event>)
    ensures RunAll(d, events + more) == RunAll(RunAll(d, events), more)
  {
    if more == [] {
      assert events + more == events;
    } else {
      RunAppend(d, events, more[..|more| - 1]);
      assert events + more == events + more[..|more| - 1] + [more[|more| - 1]];
      Then(d, events + more[..|more| - 1], more[|more| - 1]);
    }
  }

  lemma PaymentCaptured()
    ensures Next(Next(Next(Next(IDLE, PREPARED[0]), PREPARED[1]), PREPARED[2]), PREPARED[3]) == SetUp(PAID)
  {
    var p := PAID.(status := Pending, providerId := None);
    assert Next(IDLE, PREPARED[0]) == SetUp(p);
    assert Next(SetUp(p), PREPARED[1]) == SetUp(p.(providerId := Some("x")));
    assert Next(SetUp(p.(providerId := Some("x"))), PREPARED[2]) == SetUp(PAID.(status := Processing));
    assert Next(SetUp(PAID.(status := Processing)), PREPARED[3]) == SetUp(PAID);
  }

  lemma StatementTally()
    ensures TallyRows([PAID], STATEMENT, 1) == Ok(Tally(LISTED.items, {"p"}, 1, 0))
  {
    assert FindProvided([PAID], "b", "x") == 0;
    assert TallyRows([PAID], STATEMENT, 0) == Ok(Tally([], {}, 0, 0));
    assert [] + LISTED.items == LISTED.items && {} + {"p"} == {"p"};
    assert AddItem(Tally([], {}, 0, 0), LISTED.items[0]) == Tally(LISTED.items, {"p"}, 1, 0);
  }

  lemma StatementMatches()
    ensures Reconcile(State([PAID], {}, [], []), STATEMENT, true) == Ok(State([PAID], {}, [], [LISTED]))
  {
    StatementTally();
    hide TallyRows;
    assert MissingItems([PAID], STATEMENT, []) == [];
    NothingMissing({"p"});
    assert LISTED.items + [] == LISTED.items && [] + [LISTED] == [LISTED];
  }

  lemma NothingMissing(seen: set<string>)
    ensures Unresolved([], seen) == []
  {
    assert NotIn([], seen) == [];
  }

  lemma PreparedDesk()
    ensures RunAll(IDLE, PREPARED) == IDLE.(st := State([PAID], {}, [], [LISTED]))
  {
    FiveEvents(IDLE, PREPARED[0], PREPARED[1], PREPARED[2], PREPARED[3], PREPARED[4]);
    assert PREPARED == [PREPARED[0], PREPARED[1], PREPARED[2], PREPARED[3], PREPARED[4]];
    PaymentCaptured();
    StatementMatches();
    hide Reconcile, RunAll, Next;
    assert Next(SetUp(PAID), PREPARED[4]) == IDLE.(st := State([PAID], {}, [], [LISTED])) by { Booking(); }
  }

  lemma Booking()
    ensures Next(SetUp(PAID), PREPARED[4]).st == Step(SetUp(PAID).st, OpReconcile(STATEMENT, true))
    ensures Next(SetUp(PAID), PREPARED[4]) == SetUp(PAID).(st := Next(SetUp(PAID), PREPARED[4]).st)
  {
    hide Reconcile;
  }

  /** The five events of the overlap, when the run has one item and nothing else is in flight. */
  lemma OverlapEvents(d: Desk, payment: string, reference: string, amount: int, currency: string, run: string)
    requires d.settlings == [] && d.closings == []
    requires var k := FindRun(d.st.runs, run); k < |d.st.runs| && |d.st.runs[k].items| == 1
    ensures RunAll(d, [EvReadProof(payment, reference, amount, currency, true), EvLockRun(run), EvReadItem(0),
                       EvClose(0), EvInsert(0)])
              == Overlap(d, payment, reference, amount, currency, run)
  {
    var e := EvReadProof(payment, reference, amount, currency, true);
    FiveEvents(d, e, EvLockRun(run), EvReadItem(0), EvClose(0), EvInsert(0));
    OneRead(LockRun(ReadProof(d, payment, reference, amount, currency, true), run));
    hide RunAll, ReadProof, LockRun, ReadItem, ReadItems, CloseRun, Insert, FindRun;
  }

  lemma OneRead(d: Desk)
    ensures ReadItems(d, 0, 1) == ReadItem(d, 0)
  {
    assert ReadItems(d, 0, 0) == d;
  }

  /** From empty tables: a run after which a settlement of a payment that a closed run lists is not reconciled. */
  lemma CrossedFromEmpty()
    ensures PendingFor(RunAll(IDLE, CROSSED).st, 0, "p") && !AlwaysReconciled(CROSSED) && !NoneLate(CROSSED)
  {
    var d := RunAll(IDLE, PREPARED);
    PreparedDesk();
    RunKeepsDesk(PREPARED);
    RunAppend(IDLE, PREPARED, CROSSED[5..]);
    assert CROSSED == PREPARED + CROSSED[5..];
    CanCrossPrepared();
    hide CanCross, DeskInv, RunAll, Proved, NoneLate;
    OverlapEvents(d, "p", "s1", 1, "E", "r");
    OverlapLeavesPending(d, "p", "s1", 1, "E", "r");
    AlwaysReconciledIff(CROSSED);
  }

  lemma CanCrossPrepared()
    ensures CanCross(IDLE.(st := State([PAID], {}, [], [LISTED])), "p", "s1", 1, "E", "r")
    ensures FindRun([LISTED], "r") == 0
  {
    assert FindIntent([PAID], "p") == 0;
    assert LISTED.items[0] in LISTED.items;
  }
}
