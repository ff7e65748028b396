/** One execution that nobody interferes with: its protocol steps amount to one atomic call. */
module RuntimeAlone {
  import opened HusRegistry
  import opened HusRuntime
  import opened Outcomes

  /** The state with this one attempt. */
  function With(st: State, a: Attempt): (r: State)
    ensures r.attempts == [a] && r.records == st.records && r.effects == st.effects
  {
    st.(attempts := [a])
  }

  lemma SetOnly(st: State, a: Attempt, p: Phase)
    ensures SetPhase(With(st, a), 0, p) == With(st, a.(phase := p))
  {
    assert [a][0 := a.(phase := p)] == [a.(phase := p)];
  }

  predicate MayRun(st: State, ctx: Context, approved: bool) {
    IsRead(ctx.action) || (approved && st.verifier && ApprovalHolds(st, ctx) && ctx.key.Some?)
  }

  function Observed(st: State, ctx: Context, outcome: Outcome): Outcome {
    if ctx.action in (if IsRead(ctx.action) then st.readHandlers else st.mutationHandlers) then outcome
    else Failed("no sovereign runtime handler is registered for this capability")
  }

  /** What becomes of an attempt under the key of a committed record. */
  function Reuse(r: Record, k: nat, ctx: Context): Phase {
    if SameIntent(r.ctx, ctx) && r.ctx.argsHash == ctx.argsHash then Done(k, true) else Rejected
  }

  function WithRecord(st: State, ctx: Context, approved: bool, observed: Outcome): State {
    With(st, Attempt(ctx, approved, Done(|st.records|, false))).(
      records := st.records + [Record(ctx, observed)],
      effects := if observed.Finished? then st.effects + [ctx] else st.effects)
  }

  /** Allowed, and under no used key: the handler runs. */
  predicate Runs(st: State, ctx: Context, approved: bool) {
    MayRun(st, ctx, approved) && FindRecord(st.records, ctx) == |st.records|
  }

  /** What the caller gets back. */
  datatype Answer = Refused | Returned(record: nat, outcome: Outcome, replayed: bool)

  function AnswerTo(st: State, ctx: Context, approved: bool, outcome: Outcome): Answer {
    var k := FindRecord(st.records, ctx);
    if !MayRun(st, ctx, approved) then Refused
    else if k == |st.records| then Returned(k, Observed(st, ctx, outcome), false)
    else if Reuse(st.records[k], k, ctx).Done? then Returned(k, st.records[k].outcome, true)
    else Refused
  }

  /** The whole execution of an authorized context at once. */
  function Alone(st: State, ctx: Context, approved: bool, outcome: Outcome): State {
    var k, a := FindRecord(st.records, ctx), Attempt(ctx, approved, Authorized);
    if !MayRun(st, ctx, approved) then With(st, a.(phase := Rejected))
    else if k < |st.records| then With(st, a.(phase := Reuse(st.records[k], k, ctx)))
    else WithRecord(st, ctx, approved, Observed(st, ctx, outcome))
  }

  /** The rows an execution leaves, and what it answers, are those of its only attempt. */
  lemma AloneMeans(st: State, ctx: Context, approved: bool, outcome: Outcome)
    ensures var after := Alone(st, ctx, approved, outcome);
            && after.(attempts := []) ==
                 (if Runs(st, ctx, approved)
                  then st.(attempts := [], records := st.records + [Record(ctx, Observed(st, ctx, outcome))],
                           effects := if Observed(st, ctx, outcome).Finished? then st.effects + [ctx] else st.effects)
                  else st.(attempts := []))
            && Answers(AnswerTo(st, ctx, approved, outcome), after)
  {
    hide MayRun, FindRecord, Observed, SameIntent;
  }

  /** The answer is what became of the only attempt: the stored outcome of its record, or a refusal. */
  predicate Answers(r: Answer, after: State) {
    match r
    case Refused => after.attempts == [] || after.attempts[0].phase == Rejected
    case Returned(k, o, replayed) =>
      after.attempts != [] && after.attempts[0].phase == Done(k, replayed) && k < |after.records|
      && after.records[k].outcome == o
  }

  // ---------------------------------------------------------------- step by step

  lemma VerifyAlone(st: State, a: Attempt)
    requires a.phase == Authorized
    ensures Verify(With(st, a), 0)
            == With(st, a.(phase := if MayRun(st, a.ctx, a.approved) then Verified else Rejected))
  {
    assert ApprovalHolds(With(st, a), a.ctx) == ApprovalHolds(st, a.ctx);
    hide ApprovalHolds, IsRead, SetPhase;
    SetOnly(st, a, Verified);
    SetOnly(st, a, Rejected);
    hide With;
    assert InPhase(With(st, a), 0, Authorized);
  }

  lemma LookupAlone(st: State, a: Attempt)
    requires a.phase == Verified
    ensures var k := FindRecord(st.records, a.ctx);
            Lookup(With(st, a), 0) == With(st, a.(phase :=
              if k < |st.records| && st.records[k].ctx.actor == a.ctx.actor && st.records[k].ctx.action == a.ctx.action
              then Reuse(st.records[k], k, a.ctx) else Missed))
  {
    var k := FindRecord(st.records, a.ctx);
    hide FindRecord, SetPhase, With, SameIntent;
    SetOnly(st, a, Missed);
    if k < |st.records| { SetOnly(st, a, Reuse(st.records[k], k, a.ctx)); }
    assert InPhase(With(st, a), 0, Verified);
  }

  lemma InsertAlone(st: State, a: Attempt)
    requires a.phase == Missed
    ensures var k := FindRecord(st.records, a.ctx);
            Insert(With(st, a), 0)
                == With(st, a.(phase := if k < |st.records| then Reuse(st.records[k], k, a.ctx) else Holding))
  {
    var k := FindRecord(st.records, a.ctx);
    hide FindRecord, SetPhase, With, SameIntent, SameKey;
    SetOnly(st, a, Holding);
    if k < |st.records| { SetOnly(st, a, Reuse(st.records[k], k, a.ctx)); }
    assert InPhase(With(st, a), 0, Missed) && !KeyHeld(With(st, a), 0);
  }

  lemma HandleAlone(st: State, a: Attempt, outcome: Outcome)
    requires a.phase == Holding
    ensures Handle(With(st, a), 0, outcome) == With(st, a.(phase := Ran(Observed(st, a.ctx, outcome))))
  {
    assert With(st, a).readHandlers == st.readHandlers && With(st, a).mutationHandlers == st.mutationHandlers;
    hide SetPhase, With, IsRead;
    SetOnly(st, a, Ran(Observed(st, a.ctx, outcome)));
    assert InPhase(With(st, a), 0, Holding);
  }

  lemma CommitAlone(st: State, a: Attempt, observed: Outcome)
    requires a.phase == Ran(observed)
    ensures Commit(With(st, a), 0) == WithRecord(st, a.ctx, a.approved, observed)
  {
    SetOnly(st, a, Done(|st.records|, false));
    hide SetPhase;
  }

  predicate Over(p: Phase) { p.Done? || p.Rejected? }

  lemma OverIdles(st: State, a: Attempt, outcome: Outcome)
    requires Over(a.phase)
    ensures Lookup(With(st, a), 0) == Insert(With(st, a), 0) == Handle(With(st, a), 0, outcome)
            == Commit(With(st, a), 0) == With(st, a)
  {
    hide With;
  }

  /** From the lookup on. */
  lemma FromLookup(st: State, a: Attempt, outcome: Outcome)
    requires a.phase == Verified
    ensures var k := FindRecord(st.records, a.ctx);
            Commit(Handle(Insert(Lookup(With(st, a), 0), 0), 0, outcome), 0)
            == if k < |st.records| then With(st, a.(phase := Reuse(st.records[k], k, a.ctx)))
               else WithRecord(st, a.ctx, a.approved, Observed(st, a.ctx, outcome))
  {
    var k := FindRecord(st.records, a.ctx);
    hide FindRecord, With, Lookup, Insert, Handle, Commit, SameIntent, Observed;
    LookupAlone(st, a);
    if k < |st.records| {
      var end := a.(phase := Reuse(st.records[k], k, a.ctx));
      OverIdles(st, end, outcome);
      if Lookup(With(st, a), 0) != With(st, end) { InsertAlone(st, a.(phase := Missed)); }
    } else {
      InsertAlone(st, a.(phase := Missed));
      HandleAlone(st, a.(phase := Holding), outcome);
      CommitAlone(st, a.(phase := Ran(Observed(st, a.ctx, outcome))), Observed(st, a.ctx, outcome));
    }
  }

  lemma NobodyThere(st: State, outcome: Outcome)
    requires st.attempts == []
    ensures Verify(st, 0) == Lookup(st, 0) == Insert(st, 0) == Handle(st, 0, outcome) == Commit(st, 0) == st
  {
  }

  /** The steps of the protocol, taken one after the other without interference, are one atomic call. */
  lemma StepsAreAtomic(st: State, tenant: int, actor: string, compilation: string, step: string,
                       approvalRef: Option<string>,
                       key: Option<string>, args: string, approved: bool, outcome: Outcome)
    requires st.attempts == []
    ensures var ctx := Authorize(st, tenant, actor, compilation, step, approvalRef, key, args);
            RunAlone(st, tenant, actor, compilation, step, approvalRef, key, args, approved, outcome)
            == if ctx.None? then st else Alone(st, ctx.value, approved, outcome)
  {
    var authorized := Authorize(st, tenant, actor, compilation, step, approvalRef, key, args);
    hide Authorize, Verify, Lookup, Insert, Handle, Commit, FindRecord, Observed, MayRun, Reuse, WithRecord;
    if authorized.None? {
      NobodyThere(st, outcome);
    } else {
      var a := Attempt(authorized.value, approved, Authorized);
      assert Begin(st, tenant, actor, compilation, step, approvalRef, key, args, approved) == With(st, a);
      hide With, Begin;
      VerifyAlone(st, a);
      OverIdles(st, a.(phase := Rejected), outcome);
      if MayRun(st, a.ctx, approved) { FromLookup(st, a.(phase := Verified), outcome); }
    }
  }
}
