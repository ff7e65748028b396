/** Where a committed effect comes from: over every interleaving, the plan that was active when its execution was
    authorized, the approval that was checked, and the one record that it belongs to. */
module RuntimeTrace {
  import opened HusRegistry
  import opened HusRuntime
  import opened Outcomes
  import opened RuntimeAlone

  // ---------------------------------------------------------------- what a step does to attempts and rows

  /** Attempts are only added, and keep their context and the caller's word. */
  ghost predicate KeepsContexts(st: State, st': State) {
    |st.attempts| <= |st'.attempts| && forall i :: 0 <= i < |st.attempts| ==>
        st'.attempts[i].ctx == st.attempts[i].ctx && st'.attempts[i].approved == st.attempts[i].approved
  }

  predicate Checked(p: Phase) { p in {Verified, Missed, Holding} || p.Ran? || p.Done? }

  /** Nothing passes the check of its approval, except the attempt that a verification is about. */
  ghost predicate KeepsUnchecked(st: State, st': State) {
    forall i :: 0 <= i < |st'.attempts| && Checked(st'.attempts[i].phase) ==>
      i < |st.attempts| && Checked(st.attempts[i].phase)
  }

  lemma ControlStep(st: State, e: Event)
    requires !(e.EvBegin? || e.EvVerify? || e.EvLookup? || e.EvInsert? || e.EvHandle? || e.EvCommit? || e.EvCrash?)
    ensures Step(st, e).attempts == st.attempts && Step(st, e).records == st.records
    ensures Step(st, e).effects == st.effects
  {
    hide Begin, Verify, Lookup, Insert, Handle, Commit, Crash, HasActiveStep, Registered, IsRead;
  }

  /** What all steps of an attempt but the commit leave. */
  ghost predicate KeepsRows(st: State, st': State) {
    KeepsContexts(st, st') && st'.records == st.records && st'.effects == st.effects
  }

  lemma PhaseKeepsRows(st: State, i: nat, p: Phase)
    requires i < |st.attempts|
    ensures KeepsRows(st, SetPhase(st, i, p)) && |SetPhase(st, i, p).attempts| == |st.attempts|
    ensures (Checked(p) ==> Checked(st.attempts[i].phase)) ==> KeepsUnchecked(st, SetPhase(st, i, p))
  {
    hide Checked;
  }

  lemma SameStep(st: State)
    ensures KeepsRows(st, st) && KeepsUnchecked(st, st)
  {
  }

  /** A step that sets the phase of one attempt, or does nothing. */
  predicate Sets(st: State, st': State, i: nat) {
    st' == st || (i < |st.attempts| && i < |st'.attempts| && st' == SetPhase(st, i, st'.attempts[i].phase))
  }

  /** The attempt's own handler has run, and perhaps its record is committed. */
  predicate Own(p: Phase) { p.Ran? || (p.Done? && !p.replayed) }

  lemma LookupSets(st: State, i: nat)
    ensures Sets(st, Lookup(st, i), i)
    ensures Lookup(st, i) != st ==> Checked(st.attempts[i].phase) && !Own(Lookup(st, i).attempts[i].phase)
  {
    hide SameIntent, SameKey, FindRecord;
  }

  lemma InsertSets(st: State, i: nat)
    ensures Sets(st, Insert(st, i), i)
    ensures Insert(st, i) != st ==> Checked(st.attempts[i].phase) && !Own(Insert(st, i).attempts[i].phase)
  {
    hide KeyHeld, SameIntent, SameKey, FindRecord;
  }

  lemma HandleSets(st: State, i: nat, outcome: Outcome)
    ensures Sets(st, Handle(st, i, outcome), i) && (Handle(st, i, outcome) != st ==> Checked(st.attempts[i].phase))
  {
    hide IsRead;
  }

  lemma CrashSets(st: State, i: nat)
    ensures Sets(st, Crash(st, i), i)
    ensures Crash(st, i) != st ==> !Checked(Crash(st, i).attempts[i].phase) && !Own(Crash(st, i).attempts[i].phase)
  {
  }

  lemma VerifySets(st: State, i: nat)
    ensures Sets(st, Verify(st, i), i)
    ensures Verify(st, i) != st ==> !Own(Verify(st, i).attempts[i].phase)
  {
    hide ApprovalHolds, IsRead;
  }

  lemma SetsKeeps(st: State, st': State, i: nat)
    requires Sets(st, st', i)
    ensures KeepsRows(st, st') && |st'.attempts| == |st.attempts|
    ensures st' == st || (Checked(st'.attempts[i].phase) ==> Checked(st.attempts[i].phase)) ==> KeepsUnchecked(st, st')
  {
    hide KeepsRows, KeepsUnchecked, SetPhase, Checked;
    if st' == st { SameStep(st); } else { PhaseKeepsRows(st, i, st'.attempts[i].phase); }
  }

  lemma CommitStep(st: State, i: nat)
    ensures KeepsContexts(st, Commit(st, i)) && KeepsUnchecked(st, Commit(st, i))
    ensures |Commit(st, i).attempts| == |st.attempts|
  {
  }

  lemma BeginStep(st: State, e: Event)
    requires e.EvBegin?
    ensures KeepsRows(st, Step(st, e)) && KeepsUnchecked(st, Step(st, e))
    ensures |Step(st, e).attempts| <= |st.attempts| + 1
  {
    hide Authorize;
  }

  lemma AttemptStep(st: State, e: Event)
    requires e.EvVerify? || e.EvLookup? || e.EvInsert? || e.EvHandle? || e.EvCrash?
    ensures KeepsRows(st, Step(st, e)) && |Step(st, e).attempts| == |st.attempts|
    ensures !e.EvVerify? ==> KeepsUnchecked(st, Step(st, e))
  {
    hide Begin, Verify, Lookup, Insert, Handle, Commit, Crash, KeepsRows, KeepsUnchecked, Sets, Checked;
    if e.EvVerify? { VerifySets(st, e.i); }
    else if e.EvLookup? { LookupSets(st, e.i); }
    else if e.EvInsert? { InsertSets(st, e.i); }
    else if e.EvHandle? { HandleSets(st, e.i, e.outcome); }
    else { CrashSets(st, e.i); }
    SetsKeeps(st, Step(st, e), e.i);
  }

  lemma StepContexts(st: State, e: Event)
    ensures KeepsContexts(st, Step(st, e))
    ensures !e.EvBegin? ==> |Step(st, e).attempts| == |st.attempts|
    ensures |Step(st, e).attempts| <= |st.attempts| + 1
    ensures !e.EvVerify? ==> KeepsUnchecked(st, Step(st, e))
    ensures !e.EvCommit? ==> Step(st, e).records == st.records && Step(st, e).effects == st.effects
  {
    if e.EvCommit? { CommitIsStep(st, e); }
    hide Step, KeepsContexts, KeepsUnchecked, Commit;
    if e.EvBegin? {
      BeginStep(st, e);
    } else if e.EvCommit? {
      CommitStep(st, e.i);
    } else if e.EvVerify? || e.EvLookup? || e.EvInsert? || e.EvHandle? || e.EvCrash? {
      AttemptStep(st, e);
    } else {
      ControlStep(st, e);
      SameAttempts(st, Step(st, e));
    }
  }

  lemma CommitIsStep(st: State, e: Event)
    requires e.EvCommit?
    ensures Step(st, e) == Commit(st, e.i)
  {
    hide Commit;
  }

  lemma SameAttempts(st: State, st': State)
    requires st'.attempts == st.attempts
    ensures KeepsContexts(st, st') && KeepsUnchecked(st, st')
  {
  }

  // ---------------------------------------------------------------- effects are finished records

  /** The contexts of the records whose handler finished, in order. */
  function Finishes(records: seq<Record>): seq<Context> {
    if records == [] then []
    else
      var n := |records| - 1;
      Finishes(records[..n]) + if records[n].outcome.Finished? then [records[n].ctx] else []
  }

  /** Every record was written by one attempt that did not replay, for its own context. */
  ghost predicate Written(st: State) { forall k: nat :: k < |st.records| ==> WrittenOnce(st, k) }

  ghost predicate WrittenOnce(st: State, k: nat)
    requires k < |st.records|
  {
    exists i :: 0 <= i < |st.attempts| && st.attempts[i].phase == Done(k, false)
                && st.attempts[i].ctx == st.records[k].ctx
  }

  lemma CommitWrites(st: State, i: nat)
    requires Written(st) && st.effects == Finishes(st.records)
    ensures Written(Commit(st, i)) && Commit(st, i).effects == Finishes(Commit(st, i).records)
  {
    var after := Commit(st, i);
    if after != st {
      var n := |st.records|;
      assert after.records[..n] == st.records;
      assert after.attempts[i].phase == Done(n, false) && after.attempts[i].ctx == after.records[n].ctx;
      forall k: nat | k < |after.records| ensures WrittenOnce(after, k) {
        if k < n {
          assert WrittenOnce(st, k);
          var j :| 0 <= j < |st.attempts| && st.attempts[j].phase == Done(k, false)
                   && st.attempts[j].ctx == st.records[k].ctx;
          assert j != i && after.attempts[j] == st.attempts[j];
        }
      }
    }
  }

  lemma OthersKeepWritten(st: State, after: State)
    requires Written(st) && KeepsResults(st, after) && after.records == st.records
    ensures Written(after)
  {
    forall k: nat | k < |after.records| ensures WrittenOnce(after, k) {
      assert WrittenOnce(st, k);
      var i :| 0 <= i < |st.attempts| && st.attempts[i].phase == Done(k, false)
               && st.attempts[i].ctx == st.records[k].ctx;
      assert after.attempts[i] == st.attempts[i];
    }
  }

  /** Main result: over every interleaving the committed effects are the finished records, each once and in the order
      of the commits, and every record was written by an execution of exactly its context. */
  lemma {:induction false} EffectsAreRecords(start: State, events: seq<Event>)
    requires Start(start)
    ensures Run(start, events).effects == Finishes(Run(start, events).records) && Written(Run(start, events))
  {
    if events != [] {
      var n := |events| - 1;
      EffectsAreRecords(start, events[..n]);
      var mid := Run(start, events[..n]);
      StepContexts(mid, events[n]);
      if events[n].EvCommit? {
        CommitWrites(mid, events[n].i);
      } else {
        hide Step, Written, KeepsResults, KeepsContexts;
        OneStepResults(mid, events[n]);
        OthersKeepWritten(mid, Run(start, events));
      }
      hide Start, Written;
    }
  }

  lemma OneStepResults(st: State, e: Event)
    ensures KeepsResults(st, Step(st, e))
  {
    hide Step, KeepsResults;
    if e.EvBegin? || e.EvVerify? || e.EvLookup? || e.EvInsert? || e.EvHandle? || e.EvCommit? || e.EvCrash? {
      AttemptKeepsResults(st, e);
    } else {
      ControlKeepsResults(st, e);
      SameResults(st, Step(st, e));
    }
  }

  lemma SameResults(st: State, st': State)
    requires st'.attempts == st.attempts && st'.records == st.records
    ensures KeepsResults(st, st')
  {
  }

  // ---------------------------------------------------------------- how an execution was authorized

  /** The call that began an execution, on a plan that was active in the caller's tenant: its step, action and hash
      are the plan's, and a mutation named an approval and has to be idempotent. */
  ghost predicate BegunBy(before: State, e: Event, a: Attempt) {
    && e.EvBegin? && e.compilation in before.compilations
    && var plan, ctx := before.compilations[e.compilation], a.ctx;
       && plan.tenant == e.tenant == ctx.tenant && plan.status == Active && plan.planHash == ctx.planHash
       && e.step in plan.steps && plan.steps[e.step].action == ctx.action && Registered(ctx.action)
       && ctx.actor == e.actor && ctx.compilation == e.compilation && ctx.step == e.step && ctx.argsHash == Sha(e.args)
       && ctx.approvalRef == (if e.approvalRef == Some("") then None else e.approvalRef)
       && ctx.key == (if e.key == Some("") then None else e.key)
       && (plan.steps[e.step].read || (plan.steps[e.step].idempotent && ctx.approvalRef.Some?))
       && a.approved == e.approved
  }

  lemma BeginIsBegun(st: State, e: Event)
    requires e.EvBegin? && |Step(st, e).attempts| > |st.attempts|
    ensures BegunBy(st, e, Step(st, e).attempts[|st.attempts|])
    ensures Step(st, e).attempts[|st.attempts|].phase == Authorized
  {
    hide Registered;
  }

  lemma BegunKeeps(before: State, e: Event, a: Attempt, b: Attempt)
    requires BegunBy(before, e, a) && a.ctx == b.ctx && a.approved == b.approved
    ensures BegunBy(before, e, b)
  {
    hide Registered;
  }

  /** Every execution was begun by one call, on a plan that was active then. */
  lemma {:induction false} WasBegun(start: State, events: seq<Event>, i: nat) returns (n: nat)
    requires Start(start) && i < |Run(start, events).attempts|
    ensures n < |events| && |Run(start, events[..n]).attempts| == i
    ensures BegunBy(Run(start, events[..n]), events[n], Run(start, events).attempts[i])
  {
    var last := |events| - 1;
    var mid := Run(start, events[..last]);
    StepContexts(mid, events[last]);
    if i < |mid.attempts| {
      n := WasBegun(start, events[..last], i);
      assert events[..last][..n] == events[..n];
      hide BegunBy, Step, Start;
      BegunKeeps(Run(start, events[..n]), events[n], mid.attempts[i], Run(start, events).attempts[i]);
    } else {
      n := last;
      hide BegunBy, Start;
      BeginIsBegun(mid, events[last]);
    }
  }

  // ---------------------------------------------------------------- how a mutation was approved

  /** When the approval of a mutation was checked: an approved action of the caller's tenant and run, for this tool,
      bound to this step of this plan, this key and these arguments; approved by somebody signed in through an
      identity of their own and an administrator of the tenant at that time. */
  ghost predicate VouchedBy(before: State, e: Event, i: nat, a: Attempt) {
    && e == EvVerify(i) && before.verifier && a.approved
    && a.ctx.key.Some? && a.ctx.approvalRef.Some? && a.ctx.approvalRef.value in before.actions
    && var ctx, action := a.ctx, before.actions[a.ctx.approvalRef.value];
       && action.status == Approved && action.risk == MutationRisk
       && action.tenant == ctx.tenant && action.tool == ctx.action && Sha(action.args) == ctx.argsHash
       && action.run in before.runs && before.runs[action.run].tenant == ctx.tenant
       && before.runs[action.run].actor == ctx.actor
       && action.provenance.Some? && action.provenance.value.binding.Some?
       && var p, b := action.provenance.value, action.provenance.value.binding.value;
          && b.compilation == ctx.compilation && b.step == ctx.step && b.planHash == ctx.planHash
          && b.action == ctx.action && b.key == ctx.key.value && b.argsHash == ctx.argsHash
          && p.source == "oidc" && p.subject != "" && p.issuer != "" && action.approvedBy != ""
          && (action.approvedBy, p.issuer, p.subject) in before.identities
          && (action.approvedBy, ctx.tenant) in before.admins
  }

  lemma VerifyVouches(st: State, i: nat, j: nat)
    requires j < |st.attempts| && Checked(Verify(st, i).attempts[j].phase) && !Checked(st.attempts[j].phase)
    requires !IsRead(st.attempts[j].ctx.action)
    ensures VouchedBy(st, EvVerify(i), j, st.attempts[j])
  {
    hide IsRead;
  }

  lemma VouchedKeeps(before: State, e: Event, i: nat, a: Attempt, b: Attempt)
    requires VouchedBy(before, e, i, a) && a.ctx == b.ctx && a.approved == b.approved
    ensures VouchedBy(before, e, i, b)
  {
  }

  /** Every mutation that got past the check was vouched for when it was checked. */
  lemma {:induction false} WasVouched(start: State, events: seq<Event>, i: nat) returns (n: nat)
    requires Start(start) && i < |Run(start, events).attempts| && Checked(Run(start, events).attempts[i].phase)
    requires !IsRead(Run(start, events).attempts[i].ctx.action)
    ensures n < |events| && VouchedBy(Run(start, events[..n]), events[n], i, Run(start, events).attempts[i])
  {
    hide IsRead, VouchedBy;
    assert events != [];
    var last := |events| - 1;
    var mid, e := Run(start, events[..last]), events[last];
    hide Checked, Start;
    StepContexts(mid, e);
    CheckedBefore(mid, e, i);
    if Checked(mid.attempts[i].phase) {
      n := WasVouched(start, events[..last], i);
      assert events[..last][..n] == events[..n];
      hide Step;
      VouchedKeeps(Run(start, events[..n]), events[n], i, mid.attempts[i], Run(start, events).attempts[i]);
    } else {
      n := last;
      hide Verify;
      VerifyVouches(mid, e.i, i);
      VouchedKeeps(mid, e, i, mid.attempts[i], Run(start, events).attempts[i]);
    }
  }

  lemma CheckedBefore(st: State, e: Event, i: nat)
    requires i < |Step(st, e).attempts| && Checked(Step(st, e).attempts[i].phase)
    ensures i < |st.attempts| && (Checked(st.attempts[i].phase) || e.EvVerify?)
  {
    StepContexts(st, e);
    hide Step;
  }

  /** Main result, over every interleaving: behind every committed mutation there is one execution of exactly its
      context, begun on a plan that was active then, and vouched for when its approval was checked. */
  lemma EffectHasHistory(start: State, events: seq<Event>, k: nat) returns (i: nat, begun: nat, vouched: nat)
    requires Start(start) && k < |Run(start, events).records| && Run(start, events).records[k].outcome.Finished?
    requires !IsRead(Run(start, events).records[k].ctx.action)
    ensures var st := Run(start, events);
            && i < |st.attempts| && st.attempts[i].phase == Done(k, false) && st.attempts[i].ctx == st.records[k].ctx
            && begun < |events| && BegunBy(Run(start, events[..begun]), events[begun], st.attempts[i])
            && vouched < |events| && VouchedBy(Run(start, events[..vouched]), events[vouched], i, st.attempts[i])
  {
    hide IsRead, Start, Run, BegunBy, VouchedBy;
    EffectsAreRecords(start, events);
    var st := Run(start, events);
    assert WrittenOnce(st, k);
    i :| 0 <= i < |st.attempts| && st.attempts[i].phase == Done(k, false) && st.attempts[i].ctx == st.records[k].ctx;
    begun := WasBegun(start, events, i);
    vouched := WasVouched(start, events, i);
  }

  // ---------------------------------------------------------------- what a record says of its handler

  /** The handler call behind an outcome: what it returned, or a failure when no handler was registered then. */
  ghost predicate HandledBy(before: State, e: Event, i: nat, action: Action, outcome: Outcome) {
    && e.EvHandle? && e.i == i
    && if action in (if IsRead(action) then before.readHandlers else before.mutationHandlers)
       then outcome == e.outcome else outcome.Failed?
  }

  lemma HandleMeans(st: State, i: nat, outcome: Outcome)
    requires Handle(st, i, outcome) != st
    ensures i < |st.attempts| && Handle(st, i, outcome).attempts[i].phase.Ran?
    ensures HandledBy(st, EvHandle(i, outcome), i, st.attempts[i].ctx.action,
                      Handle(st, i, outcome).attempts[i].phase.outcome)
  {
    hide IsRead;
  }

  lemma CommitMeans(st: State, i: nat)
    requires Commit(st, i) != st
    ensures i < |st.attempts| && st.attempts[i].phase.Ran?
    ensures Commit(st, i).attempts[i].phase == Done(|st.records|, false)
    ensures |Commit(st, i).records| == |st.records| + 1 && |Commit(st, i).attempts| == |st.attempts|
    ensures Commit(st, i).records[|st.records|].outcome == st.attempts[i].phase.outcome
    ensures forall j :: 0 <= j < |st.attempts| && j != i ==> Commit(st, i).attempts[j] == st.attempts[j]
  {
  }

  lemma SetsOne(st: State, st': State, i: nat)
    requires Sets(st, st', i)
    ensures |st'.attempts| == |st.attempts|
    ensures st' != st ==> i < |st.attempts|
    ensures forall j :: 0 <= j < |st.attempts| && j != i ==> st'.attempts[j] == st.attempts[j]
  {
  }

  /** Only a handler call makes an attempt run, and only a commit makes it done without a replay. */
  lemma OwnBefore(st: State, e: Event, i: nat)
    requires i < |Step(st, e).attempts| && Own(Step(st, e).attempts[i].phase)
    ensures i < |st.attempts|
    ensures st.attempts[i].phase == Step(st, e).attempts[i].phase
            || (e.EvHandle? && e.i == i && Handle(st, i, e.outcome) != st && Step(st, e) == Handle(st, i, e.outcome))
            || (e.EvCommit? && e.i == i && Commit(st, i) != st && Step(st, e) == Commit(st, i))
  {
    hide Verify, Lookup, Insert, Handle, Commit, Crash, Begin, Sets;
    if e.EvVerify? {
      VerifySets(st, e.i);
      SetsOne(st, Step(st, e), e.i);
    } else if e.EvLookup? {
      LookupSets(st, e.i);
      SetsOne(st, Step(st, e), e.i);
    } else if e.EvInsert? {
      InsertSets(st, e.i);
      SetsOne(st, Step(st, e), e.i);
    } else if e.EvHandle? {
      HandleSets(st, e.i, e.outcome);
      SetsOne(st, Step(st, e), e.i);
    } else if e.EvCrash? {
      CrashSets(st, e.i);
      SetsOne(st, Step(st, e), e.i);
    } else if e.EvCommit? {
      if Commit(st, e.i) != st { CommitMeans(st, e.i); }
    } else if e.EvBegin? {
      hide Step;
      BeginAdds(st, e);
    } else {
      ControlStep(st, e);
      hide Step;
    }
  }

  lemma BeginAdds(st: State, e: Event)
    requires e.EvBegin?
    ensures Step(st, e).attempts == st.attempts
            || exists a: Attempt :: a.phase == Authorized && Step(st, e).attempts == st.attempts + [a]
  {
    var ctx := Authorize(st, e.tenant, e.actor, e.compilation, e.step, e.approvalRef, e.key, e.args);
    hide Authorize;
    if ctx.Some? { assert Attempt(ctx.value, e.approved, Authorized).phase == Authorized; }
  }

  /** The handler call of an attempt that has run. */
  lemma {:induction false} WasHandled(start: State, events: seq<Event>, i: nat) returns (n: nat)
    requires Start(start) && i < |Run(start, events).attempts| && Run(start, events).attempts[i].phase.Ran?
    ensures n < |events|
    ensures var a := Run(start, events).attempts[i];
            HandledBy(Run(start, events[..n]), events[n], i, a.ctx.action, a.phase.outcome)
  {
    hide IsRead, HandledBy, KeepsContexts;
    assert events != [];
    var last := |events| - 1;
    var mid, e := Run(start, events[..last]), events[last];
    hide Start, Step;
    OwnBefore(mid, e, i);
    SameContext(mid, e, i);
    if mid.attempts[i].phase == Run(start, events).attempts[i].phase {
      n := WasHandled(start, events[..last], i);
      assert events[..last][..n] == events[..n];
    } else {
      n := last;
      if e.EvHandle? { HandleMeans(mid, i, e.outcome); } else { CommitMeans(mid, i); }
    }
  }

  lemma SameContext(st: State, e: Event, i: nat)
    requires i < |st.attempts|
    ensures i < |Step(st, e).attempts| && Step(st, e).attempts[i].ctx == st.attempts[i].ctx
  {
    StepContexts(st, e);
    hide Step;
  }

  /** Main result: every record says what the handler call of its own execution returned, or that it failed because
      no handler was registered. */
  lemma {:induction false} RecordWasHandled(start: State, events: seq<Event>, k: nat, i: nat) returns (n: nat)
    requires Start(start) && i < |Run(start, events).attempts|
    requires k < |Run(start, events).records| && Run(start, events).attempts[i].phase == Done(k, false)
    ensures n < |events|
    ensures HandledBy(Run(start, events[..n]), events[n], i, Run(start, events).attempts[i].ctx.action,
                      Run(start, events).records[k].outcome)
  {
    hide *;
    LastStep(start, events, i);
    var last := |events| - 1;
    var mid, e, st := Run(start, events[..last]), events[last], Run(start, events);
    DoneIsOwn(st.attempts[i], k);
    OwnBefore(mid, e, i);
    SameContext(mid, e, i);
    OneStepResults(mid, e);
    if mid.attempts[i].phase == st.attempts[i].phase {
      DoneIsOld(start, events[..last], i);
      SameRecordAfter(mid, st, k);
      n := RecordWasHandled(start, events[..last], k, i);
    } else {
      if e.EvHandle? { HandleMeans(mid, i, e.outcome); } else { CommitMeans(mid, i); }
      n := WasHandled(start, events[..last], i);
    }
    assert events[..last][..n] == events[..n];
  }

  lemma DoneIsOwn(a: Attempt, k: nat)
    requires a.phase == Done(k, false)
    ensures Own(a.phase)
  {
  }

  /** Whoever has an attempt has an event to thank for it. */
  lemma LastStep(start: State, events: seq<Event>, i: nat)
    requires Start(start) && i < |Run(start, events).attempts|
    ensures events != []
    ensures Run(start, events) == Step(Run(start, events[..|events| - 1]), events[|events| - 1])
  {
    hide Step;
  }

  lemma SameRecordAfter(st: State, st': State, k: nat)
    requires KeepsResults(st, st') && k < |st.records|
    ensures k < |st'.records| && st'.records[k] == st.records[k]
  {
  }

  lemma DoneIsOld(start: State, events: seq<Event>, i: nat)
    requires Start(start) && i < |Run(start, events).attempts| && Run(start, events).attempts[i].phase.Done?
    ensures Run(start, events).attempts[i].phase.record < |Run(start, events).records|
  {
    hide Start, Inv, Run;
    StartIsInv(start);
    RunKeepsInv(start, events);
    DoneMeansRecord(Run(start, events), Run(start, events).attempts[i]);
  }

  // ---------------------------------------------------------------- from approval to effect

  /** A pending mutation of a run, on a step of an active plan whose handler is registered. */
  ghost predicate Proposed(st: State, id: string, tenant: int, actor: string, compilation: string, step: string,
                           tool: Action, args: string) {
    && id != "" && id in st.actions && st.actions[id].tenant == tenant && st.actions[id].tool == tool
    && st.actions[id].args == args && st.actions[id].risk == MutationRisk && st.actions[id].status == PendingApproval
    && st.actions[id].run in st.runs && st.runs[st.actions[id].run] == AIRun(tenant, actor)
    && compilation != "" && step != "" && compilation in st.compilations
    && st.compilations[compilation].tenant == tenant && st.compilations[compilation].status == Active
    && step in st.compilations[compilation].steps
    && st.compilations[compilation].steps[step] == PlanStep(tool, false, true)
    && Registered(tool) && !IsRead(tool) && tool in st.mutationHandlers && st.verifier
  }

  /** Proposing a mutation for a run of one's own makes it pending. */
  lemma ProposeIsPending(st: State, id: string, tenant: int, actor: string, run: string, compilation: string,
                         step: string, tool: Action, args: string)
    requires id != "" && id !in st.actions && run in st.runs && st.runs[run] == AIRun(tenant, actor)
    requires compilation != "" && step != "" && compilation in st.compilations
    requires st.compilations[compilation].tenant == tenant && st.compilations[compilation].status == Active
    requires step in st.compilations[compilation].steps
    requires st.compilations[compilation].steps[step] == PlanStep(tool, false, true)
    requires Registered(tool) && !IsRead(tool) && tool in st.mutationHandlers && st.verifier
    ensures Proposed(Propose(st, id, tenant, actor, run, tool, MutationRisk, args), id, tenant, actor, compilation,
                     step, tool, args)
  {
    hide Registered, IsRead;
  }

  /** Approving a proposed mutation is enough: when a signed-in administrator approves it under a key that is free,
      the execution of that step with those arguments and that key runs its handler, and its one effect carries
      exactly what was approved. */
  lemma ApprovedActionRuns(st: State, id: string, tenant: int, actor: string, compilation: string, step: string,
                           tool: Action, args: string, approver: string, key: string, subject: string, issuer: string,
                           output: string)
    requires st.attempts == [] && Proposed(st, id, tenant, actor, compilation, step, tool, args)
    requires approver != "" && key != "" && subject != "" && issuer != ""
    requires (approver, issuer, subject) in st.identities && (approver, tenant) in st.admins
    requires forall r :: r in st.records ==>
               !(r.ctx.tenant == tenant && r.ctx.compilation == compilation && r.ctx.key == Some(key))
    ensures var approved := Approve(st, id, tenant, approver, compilation, step, key, "oidc", subject, issuer);
            var after := RunAlone(approved, tenant, actor, compilation, step, Some(id), Some(key), args, true,
                                  Finished(output));
            var ctx := Context(tenant, actor, compilation, st.compilations[compilation].planHash, step, tool, Some(id),
                               Some(key), Sha(args));
            && after.effects == st.effects + [ctx] && after.records == st.records + [Record(ctx, Finished(output))]
  {
    var approved := Approve(st, id, tenant, approver, compilation, step, key, "oidc", subject, issuer);
    var ctx := Context(tenant, actor, compilation, st.compilations[compilation].planHash, step, tool, Some(id),
                       Some(key), Sha(args));
    ApprovalIsBound(st, id, tenant, actor, compilation, step, tool, args, approver, key, subject, issuer);
    hide Approve, Proposed, ApprovalHolds, Registered, IsRead, RunAlone, Alone, Authorize, FindRecord;
    StepsAreAtomic(approved, tenant, actor, compilation, step, Some(id), Some(key), args, true, Finished(output));
    KeyIsFree(st.records, ctx);
    AloneMeans(approved, ctx, true, Finished(output));
  }

  lemma KeyIsFree(records: seq<Record>, ctx: Context)
    requires ctx.key.Some? && forall r :: r in records ==>
               !(r.ctx.tenant == ctx.tenant && r.ctx.compilation == ctx.compilation && r.ctx.key == ctx.key)
    ensures FindRecord(records, ctx) == |records|
  {
    NoRecord(records, ctx);
    hide FindRecord;
  }

  lemma ApprovalIsBound(st: State, id: string, tenant: int, actor: string, compilation: string, step: string,
                        tool: Action, args: string, approver: string, key: string, subject: string, issuer: string)
    requires st.attempts == [] && Proposed(st, id, tenant, actor, compilation, step, tool, args)
    requires approver != "" && key != "" && subject != "" && issuer != ""
    requires (approver, issuer, subject) in st.identities && (approver, tenant) in st.admins
    ensures var approved := Approve(st, id, tenant, approver, compilation, step, key, "oidc", subject, issuer);
            var ctx := Context(tenant, actor, compilation, st.compilations[compilation].planHash, step, tool, Some(id),
                               Some(key), Sha(args));
            && approved.attempts == [] && approved.records == st.records && approved.effects == st.effects
            && Authorize(approved, tenant, actor, compilation, step, Some(id), Some(key), args) == Some(ctx)
            && ApprovalHolds(approved, ctx) && approved.verifier && !IsRead(tool) && tool in approved.mutationHandlers
  {
    hide Registered, IsRead;
  }
}
