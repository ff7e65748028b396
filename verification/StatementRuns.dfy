/** What a booked statement says line by line, when a payment can be settled, and what repeating a call does. */
module StatementRuns {
  import opened Outcomes
  import opened Payments
  import opened Reconciliation
  import opened Sorting

  // ---------------------------------------------------------------- a booked statement

  /** An expected payment of the provider that no row of the statement belongs to. */
  ghost predicate Overdue(intents: seq<Intent>, m: Statement, x: string) {
    && x in m.expected && !RowFor(intents, m, x)
    && exists p :: p in intents && p.reference == x && p.provider == m.provider
  }

  /** The exception for an overdue payment: its reference, what was expected, and nothing received. */
  ghost predicate OverdueItem(intents: seq<Intent>, m: Statement, x: string, i: Item) {
    exists p :: p in intents && p.reference == x && p.provider == m.provider
                && i == Item("__MISSING__:" + x, Some(x), Some(p.amount), 0, p.currency, MissingInProvider)
  }

  /** One item a row, in the order of the statement, then one for every overdue payment, ascending. */
  ghost predicate ItemsMean(intents: seq<Intent>, m: Statement, items: seq<Item>, overdue: seq<string>) {
    && Ascending(overdue) && (forall x :: x in overdue <==> Overdue(intents, m, x))
    && |items| == |m.rows| + |overdue|
    && (forall k :: 0 <= k < |m.rows| ==> RowFact(intents, m, m.rows[k], items[k]))
    && (forall k :: 0 <= k < |overdue| ==> OverdueItem(intents, m, overdue[k], items[|m.rows| + k]))
  }

  /** The payments among some references that the provider has, in order. */
  function AwaitedOf(intents: seq<Intent>, m: Statement, missing: seq<string>): seq<string> {
    if missing == [] then []
    else
      var n := |missing| - 1;
      AwaitedOf(intents, m, missing[..n]) + if Awaited(intents, m, missing[n]) then [missing[n]] else []
  }

  lemma FoundIs(intents: seq<Intent>, p: Intent)
    requires IntentsInv(intents) && p in intents
    ensures FindIntent(intents, p.reference) < |intents| && intents[FindIntent(intents, p.reference)] == p
  {
    var k := FindIntent(intents, p.reference);
    var j :| 0 <= j < |intents| && intents[j] == p;
    hide FindIntent, SameIdentity;
    assert k < |intents|;
    assert k == j;
  }

  lemma AwaitedMeans(intents: seq<Intent>, m: Statement, x: string)
    requires IntentsInv(intents)
    ensures Awaited(intents, m, x) <==> exists p :: p in intents && p.reference == x && p.provider == m.provider
    ensures Awaited(intents, m, x) ==> OverdueItem(intents, m, x, MissingItem(intents[FindIntent(intents, x)]))
  {
    forall p | p in intents && p.reference == x && p.provider == m.provider ensures Awaited(intents, m, x) {
      FoundIs(intents, p);
    }
    if Awaited(intents, m, x) { assert intents[FindIntent(intents, x)] in intents; }
  }

  lemma {:induction false} MissingMeans(intents: seq<Intent>, m: Statement, missing: seq<string>)
    requires IntentsInv(intents) && Ascending(missing)
    ensures var awaited, extra := AwaitedOf(intents, m, missing), MissingItems(intents, m, missing);
            && Ascending(awaited) && |extra| == |awaited|
            && (forall x :: x in awaited <==> x in missing && Awaited(intents, m, x))
            && (forall k :: 0 <= k < |awaited| ==> OverdueItem(intents, m, awaited[k], extra[k]))
  {
    hide IntentsInv, Awaited, OverdueItem, MissingItem, FindIntent;
    if missing != [] {
      var n := |missing| - 1;
      assert missing == missing[..n] + [missing[n]];
      AscendingInit(missing[..n], missing[n]);
      MissingMeans(intents, m, missing[..n]);
      AwaitedMeans(intents, m, missing[n]);
      AscendingMore(AwaitedOf(intents, m, missing[..n]), missing[n]);
      hide Ascending;
    }
  }

  lemma AscendingInit(init: seq<string>, last: string)
    requires Ascending(init + [last])
    ensures Ascending(init) && forall x :: x in init ==> Less(x, last)
  {
    assert forall i :: 0 <= i < |init| ==> (init + [last])[i] == init[i];
    forall x | x in init ensures Less(x, last) {
      var i :| 0 <= i < |init| && init[i] == x;
      assert Less((init + [last])[i], (init + [last])[|init|]);
    }
  }

  lemma AscendingMore(s: seq<string>, x: string)
    requires Ascending(s)
    ensures (forall y :: y in s ==> Less(y, x)) ==> Ascending(s + [x])
  {
  }

  /** Main result: the run that a new statement books has the statement's own particulars, one item a row and one an
      overdue payment, and counts them; every expected reference without a row is counted in its total. */
  lemma BookedRun(st: State, m: Statement) returns (overdue: seq<string>, unresolved: seq<string>)
    requires Inv(st) && FindRun(st.runs, m.reference) == |st.runs| && Reconcile(st, m, true).Ok?
    ensures |Reconcile(st, m, true).value.runs| == |st.runs| + 1
    ensures var run := Reconcile(st, m, true).value.runs[|st.runs|];
            && Reconcile(st, m, true).value == st.(runs := st.runs + [run])
            && (run.reference, run.provider, run.market, run.currency)
               == (m.reference, m.provider, m.market, m.currency)
            && (run.source, run.sha) == (m.source, m.sha)
            && ItemsMean(st.intents, m, run.items, overdue)
            && run.matched == CountMatched(run.items) && run.exceptions == |run.items| - run.matched
            && run.status == (if run.exceptions == 0 then AllMatched else Exceptions)
            && Ascending(unresolved) && (forall x :: x in unresolved <==> x in m.expected && !RowFor(st.intents, m, x))
            && run.total == |m.rows| + |unresolved|
  {
    hide *;
    NewRun(st, m);
    var t := TallyRows(st.intents, m, |m.rows|).value;
    unresolved := Unresolved(m.expected, t.seen);
    overdue := AwaitedOf(st.intents, m, unresolved);
    UnresolvedMeans(st.intents, m, t);
    BookedMeans(st.intents, m, t, unresolved, overdue);
    RunAppended(st, Booked(m, t, |unresolved|, MissingItems(st.intents, m, unresolved)));
  }

  lemma RunAppended(st: State, run: Recon)
    ensures var after := st.(runs := st.runs + [run]); |after.runs| == |st.runs| + 1 && after.runs[|st.runs|] == run
  {
  }

  lemma UnresolvedMeans(intents: seq<Intent>, m: Statement, t: Tally)
    requires IntentsInv(intents) && TallyInv(intents, m, |m.rows|, t)
    ensures var unresolved := Unresolved(m.expected, t.seen);
            && Ascending(unresolved) && (forall x :: x in unresolved <==> x in m.expected && !RowFor(intents, m, x))
  {
    SortedSetAscending(NotIn(m.expected, t.seen));
    hide IntentsInv, TallyInv, RowFor, Ascending, SortedSet;
    forall x | x in m.expected ensures x in t.seen <==> RowFor(intents, m, x) { SeenMeansRow(intents, m, t, x); }
  }

  lemma BookedMeans(intents: seq<Intent>, m: Statement, t: Tally, unresolved: seq<string>, overdue: seq<string>)
    requires IntentsInv(intents) && TallyInv(intents, m, |m.rows|, t) && Ascending(unresolved)
    requires forall x :: x in unresolved <==> x in m.expected && !RowFor(intents, m, x)
    requires overdue == AwaitedOf(intents, m, unresolved)
    ensures var run := Booked(m, t, |unresolved|, MissingItems(intents, m, unresolved));
            && (run.reference, run.provider, run.market, run.currency)
               == (m.reference, m.provider, m.market, m.currency)
            && (run.source, run.sha) == (m.source, m.sha)
            && ItemsMean(intents, m, run.items, overdue)
            && run.matched == CountMatched(run.items) && run.exceptions == |run.items| - run.matched
            && run.status == (if run.exceptions == 0 then AllMatched else Exceptions)
            && run.total == |m.rows| + |unresolved|
  {
    hide IntentsInv, RowFor, Ascending, Awaited, OverdueItem, RowFact, CountMatched, MissingItems, AwaitedOf;
    MissingMeans(intents, m, unresolved);
    MissingCounts(intents, m, unresolved);
    CountConcat(t.items, MissingItems(intents, m, unresolved));
    forall x ensures x in overdue <==> Overdue(intents, m, x) { AwaitedMeans(intents, m, x); }
  }

  lemma {:induction false} CountConcat(a: seq<Item>, b: seq<Item>)
    ensures CountMatched(a + b) == CountMatched(a) + CountMatched(b)
    decreases |b|
  {
    if b == [] {
      assert a + b == a;
    } else {
      var n := |b| - 1;
      CountConcat(a, b[..n]);
      assert (a + b)[..|a + b| - 1] == a + b[..n];
    }
  }

  lemma OneAwaited(intents: seq<Intent>, m: Statement, x: string)
    requires Awaited(intents, m, x)
    ensures FindIntent(intents, x) < |intents|
    ensures CountMatched([MissingItem(intents[FindIntent(intents, x)])]) == 0
  {
  }

  lemma {:induction false} MissingCounts(intents: seq<Intent>, m: Statement, missing: seq<string>)
    ensures CountMatched(MissingItems(intents, m, missing)) == 0
  {
    hide Awaited;
    if missing != [] {
      var n := |missing| - 1;
      MissingCounts(intents, m, missing[..n]);
      if Awaited(intents, m, missing[n]) {
        OneAwaited(intents, m, missing[n]);
        CountConcat(MissingItems(intents, m, missing[..n]), [MissingItem(intents[FindIntent(intents, missing[n])])]);
      }
    }
  }

  // ---------------------------------------------------------------- which statements are booked

  /** The row has an amount and a currency, and is not about a payment that has no market. */
  ghost predicate RowReads(intents: seq<Intent>, m: Statement, row: Row) {
    && row.ref != "" && row.actual > 0 && row.currency != ""
    && forall p :: p in intents && Carries(p, m.provider, row.ref) ==> p.market.Some?
  }

  /** The statement names its run, source and digest, and no other run has booked the same source. */
  ghost predicate NewSource(runs: seq<Recon>, m: Statement) {
    && m.provider != "" && m.market != 0 && m.currency != "" && m.reference != "" && m.source != "" && |m.sha| == 64
    && forall r :: r in runs ==> (r.provider, r.source, r.sha) != (m.provider, m.source, m.sha)
  }

  lemma ResolvesIff(intents: seq<Intent>, m: Statement, row: Row)
    requires IntentsInv(intents) && row.ref != ""
    ensures Resolve(intents, m, row).Ok? <==> RowReads(intents, m, row)
  {
    var k := FindProvided(intents, m.provider, row.ref);
    if k < |intents| {
      assert intents[k] in intents;
      hide IntentsInv;
      forall p | p in intents && Carries(p, m.provider, row.ref) ensures p == intents[k] {
        IdentityUnique(intents, p, intents[k]);
      }
    }
  }

  lemma {:induction false} TalliesIff(intents: seq<Intent>, m: Statement, n: nat)
    requires IntentsInv(intents) && n <= |m.rows| && forall r :: r in m.rows ==> r.ref != ""
    ensures TallyRows(intents, m, n).Ok? <==> forall k :: 0 <= k < n ==> RowReads(intents, m, m.rows[k])
  {
    hide IntentsInv, RowReads, Resolve;
    if n > 0 {
      TalliesIff(intents, m, n - 1);
      ResolvesIff(intents, m, m.rows[n - 1]);
    }
  }

  lemma DistinctOverdue(intents: seq<Intent>, m: Statement, overdue: seq<string>, items: seq<Item>)
    requires Ascending(overdue) && |items| == |overdue|
    requires forall k :: 0 <= k < |overdue| ==> OverdueItem(intents, m, overdue[k], items[k])
    ensures UniqueProviderRefs(items)
    ensures forall k :: 0 <= k < |overdue| ==> items[k].providerRef == "__MISSING__:" + overdue[k]
  {
    hide Ascending;
    forall i, j | 0 <= i < j < |items| ensures items[i].providerRef != items[j].providerRef {
      AscendingApart(overdue, i, j);
      assert OverdueItem(intents, m, overdue[i], items[i]) && OverdueItem(intents, m, overdue[j], items[j]);
      SamePrefix("__MISSING__:", overdue[i], overdue[j]);
    }
  }

  lemma AscendingApart(s: seq<string>, i: nat, j: nat)
    requires Ascending(s) && i < j < |s|
    ensures s[i] != s[j]
  {
    LessTotal(s[i], s[i]);
  }

  lemma SamePrefix(a: string, x: string, y: string)
    ensures a + x == a + y ==> x == y
  {
    assert (a + x)[|a|..] == x && (a + y)[|a|..] == y;
  }

  /** No two rows are about one provider reference, nor is any named like the exception of an overdue payment. */
  ghost predicate RowsApart(intents: seq<Intent>, m: Statement) {
    && (forall i, j :: 0 <= i < j < |m.rows| ==> m.rows[i].ref != m.rows[j].ref)
    && (forall k, x :: 0 <= k < |m.rows| && Overdue(intents, m, x) ==> m.rows[k].ref != "__MISSING__:" + x)
  }

  lemma ItemsApartIff(intents: seq<Intent>, m: Statement, items: seq<Item>, extra: seq<Item>, overdue: seq<string>)
    requires ItemsMean(intents, m, items + extra, overdue) && |items| == |m.rows| && !HasDuplicates(m.rows)
    ensures UniqueProviderRefs(items + extra) <==> RowsApart(intents, m)
  {
    hide *;
    var all := items + extra;
    assert forall k :: 0 <= k < |extra| ==> extra[k] == all[|m.rows| + k];
    MeanParts(intents, m, all, extra, overdue);
    DistinctOverdue(intents, m, overdue, extra);
    RowRefs(intents, m, all);
    ApartIff(intents, m, all, extra, overdue);
  }

  lemma MeanParts(intents: seq<Intent>, m: Statement, all: seq<Item>, extra: seq<Item>, overdue: seq<string>)
    requires ItemsMean(intents, m, all, overdue) && |all| == |m.rows| + |extra|
    requires forall k :: 0 <= k < |extra| ==> extra[k] == all[|m.rows| + k]
    ensures |extra| == |overdue| && Ascending(overdue) && forall x :: x in overdue <==> Overdue(intents, m, x)
    ensures forall k :: 0 <= k < |m.rows| ==> RowFact(intents, m, m.rows[k], all[k])
    ensures forall k :: 0 <= k < |extra| ==> OverdueItem(intents, m, overdue[k], extra[k])
  {
    hide OverdueItem, Overdue, RowFact, Ascending;
  }

  lemma RowRefs(intents: seq<Intent>, m: Statement, all: seq<Item>)
    requires |m.rows| <= |all| && forall k :: 0 <= k < |m.rows| ==> RowFact(intents, m, m.rows[k], all[k])
    ensures forall k :: 0 <= k < |m.rows| ==> all[k].providerRef == m.rows[k].ref
  {
  }

  lemma ApartIff(intents: seq<Intent>, m: Statement, all: seq<Item>, extra: seq<Item>, overdue: seq<string>)
    requires |all| == |m.rows| + |extra| && |extra| == |overdue| && !HasDuplicates(m.rows)
    requires forall k :: 0 <= k < |m.rows| ==> all[k].providerRef == m.rows[k].ref
    requires forall k :: 0 <= k < |extra| ==>
               extra[k] == all[|m.rows| + k] && extra[k].providerRef == "__MISSING__:" + overdue[k]
    requires UniqueProviderRefs(extra) && forall x :: x in overdue <==> Overdue(intents, m, x)
    ensures UniqueProviderRefs(all) <==> RowsApart(intents, m)
  {
    hide Overdue;
    var n := |m.rows|;
    if UniqueProviderRefs(all) {
      forall k, x | 0 <= k < n && Overdue(intents, m, x) ensures m.rows[k].ref != "__MISSING__:" + x {
        var q :| 0 <= q < |overdue| && overdue[q] == x;
        assert all[k].providerRef != all[n + q].providerRef;
      }
    }
    if RowsApart(intents, m) {
      forall i, j | 0 <= i < j < |all| ensures all[i].providerRef != all[j].providerRef {
        if n <= i {
          assert extra[i - n].providerRef != extra[j - n].providerRef;
        } else if n <= j {
          assert overdue[j - n] in overdue;
        }
      }
    }
  }

  /** Main result: which statements of a new reference are booked. */
  lemma StatementBookedIff(st: State, m: Statement, allowed: bool)
    requires Inv(st) && forall r :: r in st.runs ==> r.reference != m.reference
    ensures Reconcile(st, m, allowed).Ok? <==>
              && allowed && NewSource(st.runs, m) && m.rows != []
              && (forall row :: row in m.rows ==> RowReads(st.intents, m, row))
              && RowsApart(st.intents, m)
  {
    InvIntents(st);
    hide *;
    NoRun(st.runs, m.reference);
    if allowed && NewSource(st.runs, m) && m.rows != [] && !HasDuplicates(m.rows)
       && forall r :: r in m.rows ==> r.ref != ""
    {
      TalliesIff(st.intents, m, |m.rows|);
      RowsRead(st.intents, m);
      if TallyRows(st.intents, m, |m.rows|).Ok? {
        TallyKeeps(st.intents, m, |m.rows|);
        var t := TallyRows(st.intents, m, |m.rows|).value;
        var missing := Unresolved(m.expected, t.seen);
        var extra, overdue := MissingItems(st.intents, m, missing), AwaitedOf(st.intents, m, missing);
        UnresolvedMeans(st.intents, m, t);
        BookedMeans(st.intents, m, t, missing, overdue);
        BookedItems(st.intents, m, t, |missing|, extra, overdue);
        ItemsApartIff(st.intents, m, t.items, extra, overdue);
      }
      BooksIff(st, m);
    } else {
      Refused(st, m, allowed);
    }
  }

  lemma NoRun(runs: seq<Recon>, reference: string)
    requires forall r :: r in runs ==> r.reference != reference
    ensures FindRun(runs, reference) == |runs|
  {
    var k := FindRun(runs, reference);
    hide FindRun;
    assert forall j :: 0 <= j < |runs| ==> runs[j] in runs;
  }

  lemma RowsRead(intents: seq<Intent>, m: Statement)
    ensures (forall k :: 0 <= k < |m.rows| ==> RowReads(intents, m, m.rows[k]))
            <==> forall row :: row in m.rows ==> RowReads(intents, m, row)
  {
    hide RowReads;
  }

  lemma BookedItems(intents: seq<Intent>, m: Statement, t: Tally, missing: nat, extra: seq<Item>, overdue: seq<string>)
    requires TallyInv(intents, m, |m.rows|, t)
    ensures Booked(m, t, missing, extra).items == t.items + extra && |t.items| == |m.rows|
  {
  }

  /** A statement that passes the first checks is booked when its rows are read and its items are apart. */
  lemma BooksIff(st: State, m: Statement)
    requires NewSource(st.runs, m) && FindRun(st.runs, m.reference) == |st.runs| && m.rows != []
    requires !HasDuplicates(m.rows) && forall r :: r in m.rows ==> r.ref != ""
    ensures Reconcile(st, m, true).Ok? <==>
              && TallyRows(st.intents, m, |m.rows|).Ok?
              && var t := TallyRows(st.intents, m, |m.rows|).value;
                 UniqueProviderRefs(t.items + MissingItems(st.intents, m, Unresolved(m.expected, t.seen)))
  {
    hide TallyRows, UniqueProviderRefs, MissingItems, Unresolved, HasDuplicates, FindRun;
  }

  /** Without them it is refused, and the conditions of booking do not hold either. */
  lemma Refused(st: State, m: Statement, allowed: bool)
    requires FindRun(st.runs, m.reference) == |st.runs|
    requires !(allowed && NewSource(st.runs, m) && m.rows != [] && !HasDuplicates(m.rows)
               && forall r :: r in m.rows ==> r.ref != "")
    ensures Reconcile(st, m, allowed).Err?
    ensures !(allowed && NewSource(st.runs, m) && m.rows != [] && RowsApart(st.intents, m)
              && forall row :: row in m.rows ==> RowReads(st.intents, m, row))
  {
    hide TallyRows, UniqueProviderRefs, MissingItems, Unresolved, FindRun, Overdue;
  }

  /** A statement that is sent again is accepted when it is the same source, and changes nothing. */
  lemma ResubmittedIff(st: State, m: Statement, allowed: bool, r: Recon)
    requires CoreInv(st) && r in st.runs && r.reference == m.reference
    ensures Reconcile(st, m, allowed).Ok? <==>
              && m.provider != "" && m.market != 0 && m.currency != "" && m.reference != "" && m.source != ""
              && |m.sha| == 64 && (r.provider, r.source, r.sha) == (m.provider, m.source, m.sha)
    ensures Reconcile(st, m, allowed).Ok? ==> Reconcile(st, m, allowed) == Ok(st)
  {
    RunsApart(st);
    hide CoreInv, TallyRows, UniqueProviderRefs, MissingItems, Unresolved, HasDuplicates;
    var i, k := 0, FindRun(st.runs, m.reference);
    i :| 0 <= i < |st.runs| && st.runs[i] == r;
    assert i == k;
  }

  lemma RunsApart(st: State)
    requires CoreInv(st)
    ensures forall i, j :: 0 <= i < j < |st.runs| ==> st.runs[i].reference != st.runs[j].reference
  {
  }

  /** No two runs have a statement reference in common, nor a provider, source and digest. */
  ghost predicate SourcesApart(runs: seq<Recon>) {
    forall i, j :: 0 <= i < j < |runs| ==>
      && runs[i].reference != runs[j].reference
      && (runs[i].provider, runs[i].source, runs[i].sha) != (runs[j].provider, runs[j].source, runs[j].sha)
  }

  lemma {:induction false} SourcesAreDistinct(ops: seq<Op>)
    ensures SourcesApart(Run(EMPTY, ops).runs)
  {
    hide SourcesApart, Step;
    if ops == [] {
      NoRuns();
    } else {
      SourcesAreDistinct(ops[..|ops| - 1]);
      StepKeepsSources(Run(EMPTY, ops[..|ops| - 1]), ops[|ops| - 1]);
    }
  }

  lemma NoRuns()
    ensures SourcesApart([])
  {
  }

  lemma StepKeepsSources(st: State, op: Op)
    requires SourcesApart(st.runs)
    ensures SourcesApart(Step(st, op).runs)
  {
    hide CreateIntent, MarkProcessing, Attach, Webhook, Capture, Settle, Reconcile, Close;
    if Perform(st, op).Ok? {
      if op.OpReconcile? {
        BookedSource(st, op.m, op.allowed);
      } else if op.OpClose? {
        ClosedSource(st, op.run);
      } else {
        RunsUntouched(st, op);
      }
    }
  }

  lemma BookedSource(st: State, m: Statement, allowed: bool)
    requires SourcesApart(st.runs) && Reconcile(st, m, allowed).Ok?
    ensures SourcesApart(Reconcile(st, m, allowed).value.runs)
  {
    hide TallyRows, UniqueProviderRefs, MissingItems, Unresolved, HasDuplicates, FindRun;
    var after := Reconcile(st, m, allowed).value;
    if after != st {
      forall i | 0 <= i < |st.runs|
        ensures st.runs[i].reference != m.reference
        ensures (st.runs[i].provider, st.runs[i].source, st.runs[i].sha) != (m.provider, m.source, m.sha)
      {
        assert st.runs[i] in st.runs && !SameSource(st.runs[i], m);
      }
    }
  }

  lemma ClosedSource(st: State, reference: string)
    requires SourcesApart(st.runs) && Close(st, reference).Ok?
    ensures SourcesApart(Close(st, reference).value.runs)
  {
    hide FindRun, Mark;
  }

  lemma RunsUntouched(st: State, op: Op)
    requires !op.OpReconcile? && !op.OpClose? && Perform(st, op).Ok?
    ensures Perform(st, op).value.runs == st.runs
  {
    hide Reconcile, Close, FindIntent, Settled, NewSettlement, FindSettlement, Conflict;
  }
}
