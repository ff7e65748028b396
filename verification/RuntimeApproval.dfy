/** Where the approval of a mutation comes from: over every interleaving, who proposed the action, who approved it, and
    the active plan that it was bound to. */
module RuntimeApproval {
  import opened HusRegistry
  import opened HusRuntime
  import opened Outcomes
  import opened RuntimeTrace

  // ---------------------------------------------------------------- one action

  /** The proposal of the action, by the actor of its run. */
  ghost predicate ProposedBy(before: State, e: Event, id: string, a: AIAction) {
    && e.EvPropose? && (e.id, e.tenant, e.run, e.tool, e.risk, e.args) == (id, a.tenant, a.run, a.tool, a.risk, a.args)
    && e.run in before.runs && before.runs[e.run].tenant == e.tenant && before.runs[e.run].actor == e.actor
    && id !in before.actions
  }

  /** The approval of a mutation that was pending: bound to a step of a plan of its tenant that was active then, for
      this tool, and to the plan's hash, a key and the arguments. */
  ghost predicate ApprovedBy(before: State, e: Event, id: string, a: AIAction) {
    && e.EvApprove? && e.id == id && e.tenant == a.tenant && e.boundKey != ""
    && id in before.actions && before.actions[id].status == PendingApproval && ActionStays(before.actions[id], a)
    && e.compilation in before.compilations
    && var plan := before.compilations[e.compilation];
       && plan.tenant == a.tenant && plan.status == Active
       && e.step in plan.steps && plan.steps[e.step].action == a.tool
       && a.approvedBy == e.approver && a.provenance.Some? && a.provenance.value.binding.Some?
       && var p, b := a.provenance.value, a.provenance.value.binding.value;
          && (p.source, p.subject, p.issuer) == (e.source, e.subject, e.issuer)
          && (b.compilation, b.step, b.planHash) == (e.compilation, e.step, plan.planHash)
          && (b.action, b.key, b.argsHash) == (a.tool, e.boundKey, Sha(a.args))
  }

  /** An action keeps everything but its approval; a finished approval is final. */
  predicate ActionStays(a: AIAction, b: AIAction) {
    && (a.tenant, a.run, a.tool, a.risk, a.args) == (b.tenant, b.run, b.tool, b.risk, b.args)
    && (a.status != PendingApproval ==> b == a)
  }

  predicate IsRedeemed(a: AIAction) { a.status == Approved && a.risk == MutationRisk }

  /** What a step does to an action: it was there and stays, unless it is proposed or approved now. */
  lemma ActionStep(st: State, e: Event, id: string)
    requires id in Step(st, e).actions
    ensures var b := Step(st, e).actions[id];
            if id in st.actions then
              && ActionStays(st.actions[id], b)
              && (IsRedeemed(b) ==> b == st.actions[id] || ApprovedBy(st, e, id, b))
            else ProposedBy(st, e, id, b) && !IsRedeemed(b)
  {
    hide Step, ApprovedBy, ProposedBy, ActionStays, IsRedeemed;
    if e.EvPropose? {
      ProposeStep(st, e, id);
    } else if e.EvApprove? {
      ApproveStep(st, e, id);
    } else {
      if e.EvBegin? || e.EvVerify? || e.EvLookup? || e.EvInsert? || e.EvHandle? || e.EvCommit? || e.EvCrash? {
        AttemptsKeepActions(st, e);
      } else if e.EvReadPlans? || e.EvCommitPlan? || e.EvAbandonPlan? {
        PlansKeepActions(st, e);
      } else {
        OthersKeepActions(st, e);
      }
      SameStays(st.actions[id]);
    }
  }

  lemma SameStays(a: AIAction)
    ensures ActionStays(a, a)
  {
  }

  lemma ProposeStep(st: State, e: Event, id: string)
    requires e.EvPropose? && id in Step(st, e).actions
    ensures var b := Step(st, e).actions[id];
            if id in st.actions then b == st.actions[id] && ActionStays(b, b)
            else ProposedBy(st, e, id, b) && !IsRedeemed(b)
  {
  }

  lemma ApproveStep(st: State, e: Event, id: string)
    requires e.EvApprove? && id in Step(st, e).actions
    ensures id in st.actions && ActionStays(st.actions[id], Step(st, e).actions[id])
    ensures IsRedeemed(Step(st, e).actions[id]) ==>
              Step(st, e).actions[id] == st.actions[id] || ApprovedBy(st, e, id, Step(st, e).actions[id])
  {
  }

  lemma OthersKeepActions(st: State, e: Event)
    requires e.EvStore? || e.EvAdmins? || e.EvIdentities? || e.EvRegisterRead? || e.EvRegisterMutation? || e.EvVerifier?
    ensures Step(st, e).actions == st.actions
  {
    hide Registered, IsRead;
  }

  lemma AttemptsKeepActions(st: State, e: Event)
    requires e.EvBegin? || e.EvVerify? || e.EvLookup? || e.EvInsert? || e.EvHandle? || e.EvCommit? || e.EvCrash?
    ensures Step(st, e).actions == st.actions
  {
    hide Begin, Verify, Lookup, Insert, Handle, Commit, Crash, Sets;
    match e
    case EvVerify(i) => VerifySets(st, i); SetsKeepActions(st, Verify(st, i), i);
    case EvLookup(i) => LookupSets(st, i); SetsKeepActions(st, Lookup(st, i), i);
    case EvInsert(i) => InsertSets(st, i); SetsKeepActions(st, Insert(st, i), i);
    case EvHandle(i, outcome) => HandleSets(st, i, outcome); SetsKeepActions(st, Handle(st, i, outcome), i);
    case EvCrash(i) => CrashSets(st, i); SetsKeepActions(st, Crash(st, i), i);
    case EvCommit(i) => CommitKeepsActions(st, i);
    case _ => BeginKeepsActions(st, e);
  }

  lemma SetsKeepActions(st: State, st': State, i: nat)
    requires Sets(st, st', i)
    ensures st'.actions == st.actions
  {
  }

  lemma CommitKeepsActions(st: State, i: nat)
    ensures Commit(st, i).actions == st.actions
  {
  }

  lemma BeginKeepsActions(st: State, e: Event)
    requires e.EvBegin?
    ensures Step(st, e).actions == st.actions
  {
    hide Authorize;
  }

  lemma PlansKeepActions(st: State, e: Event)
    requires e.EvReadPlans? || e.EvCommitPlan? || e.EvAbandonPlan?
    ensures Step(st, e).actions == st.actions
  {
    hide MayCommitPlan, PlanLocked, Switched, ActiveOthers;
  }

  // ---------------------------------------------------------------- over every interleaving

  /** Main result: every action was proposed by the actor of its run, with the tool, the risk and the arguments that it
      still has. */
  lemma {:induction false} WasProposed(start: State, events: seq<Event>, id: string) returns (n: nat)
    requires Start(start) && id in Run(start, events).actions
    ensures n < |events| && ProposedBy(Run(start, events[..n]), events[n], id, Run(start, events).actions[id])
  {
    hide Step, ProposedBy, ApprovedBy, ActionStays;
    assert events != [] by { NoActions(start, events); }
    var last := |events| - 1;
    var mid := Run(start, events[..last]);
    ActionStep(mid, events[last], id);
    n := last;
    if id in mid.actions {
      n := WasProposed(start, events[..last], id);
      assert events[..last][..n] == events[..n];
      ProposalStays(Run(start, events[..n]), events[n], id, mid.actions[id], Run(start, events).actions[id]);
    }
  }

  lemma NoActions(start: State, events: seq<Event>)
    requires Start(start) && Run(start, events).actions != map[]
    ensures events != []
  {
    hide Step;
  }

  lemma ProposalStays(before: State, e: Event, id: string, a: AIAction, b: AIAction)
    requires ProposedBy(before, e, id, a) && ActionStays(a, b)
    ensures ProposedBy(before, e, id, b)
  {
  }

  /** Main result: every approved mutation was approved once, while it was pending, for a step of a plan of its tenant
      that was active at that time, and its binding says so. */
  lemma {:induction false} WasApproved(start: State, events: seq<Event>, id: string) returns (n: nat)
    requires Start(start) && id in Run(start, events).actions && IsRedeemed(Run(start, events).actions[id])
    ensures n < |events| && ApprovedBy(Run(start, events[..n]), events[n], id, Run(start, events).actions[id])
  {
    hide Step, ProposedBy, ApprovedBy, ActionStays, IsRedeemed;
    assert events != [] by { NoActions(start, events); }
    var last := |events| - 1;
    var mid := Run(start, events[..last]);
    ActionStep(mid, events[last], id);
    n := last;
    if id in mid.actions && mid.actions[id] == Run(start, events).actions[id] {
      n := WasApproved(start, events[..last], id);
      assert events[..last][..n] == events[..n];
    }
  }

  /** The approval of the action that the context names came from this event. */
  ghost predicate ApprovedFor(before: State, e: Event, ctx: Context) {
    && e.EvApprove? && ctx.approvalRef == Some(e.id)
    && (e.tenant, e.compilation, e.step, Some(e.boundKey)) == (ctx.tenant, ctx.compilation, ctx.step, ctx.key)
    && e.compilation in before.compilations
    && var plan := before.compilations[e.compilation];
       && plan.tenant == ctx.tenant && plan.status == Active && plan.planHash == ctx.planHash
       && e.step in plan.steps && plan.steps[e.step].action == ctx.action
       && e.id in before.actions && before.actions[e.id].status == PendingApproval
       && Sha(before.actions[e.id].args) == ctx.argsHash && e.source == "oidc"
  }

  /** Main result, over every interleaving: behind every committed mutation there is one approval, given before it was
      checked, for its own tenant, plan, step, action, key and arguments, while that plan was active and carried the
      hash that the execution has. */
  lemma EffectWasApproved(start: State, events: seq<Event>, k: nat) returns (n: nat, vouched: nat)
    requires Start(start) && k < |Run(start, events).records| && Run(start, events).records[k].outcome.Finished?
    requires !IsRead(Run(start, events).records[k].ctx.action)
    ensures n < vouched < |events| && events[vouched].EvVerify?
    ensures ApprovedFor(Run(start, events[..n]), events[n], Run(start, events).records[k].ctx)
  {
    hide *;
    var i, begun, checked := EffectHasHistory(start, events, k);
    vouched := checked;
    var before, a := Run(start, events[..vouched]), Run(start, events).attempts[i];
    VouchedAction(before, events[vouched], i, a);
    var id := a.ctx.approvalRef.value;
    n := WasApproved(start, events[..vouched], id);
    assert events[..vouched][..n] == events[..n] && events[..vouched][n] == events[n];
    ApprovalFits(Run(start, events[..n]), events[n], before, events[vouched], i, a);
  }

  lemma VouchedAction(before: State, e: Event, i: nat, a: Attempt)
    requires VouchedBy(before, e, i, a)
    ensures a.ctx.approvalRef.Some? && a.ctx.approvalRef.value in before.actions && e.EvVerify?
    ensures IsRedeemed(before.actions[a.ctx.approvalRef.value])
  {
  }

  lemma ApprovalFits(st: State, e: Event, before: State, check: Event, i: nat, a: Attempt)
    requires VouchedBy(before, check, i, a) && a.ctx.approvalRef.value in before.actions
    requires ApprovedBy(st, e, a.ctx.approvalRef.value, before.actions[a.ctx.approvalRef.value])
    ensures ApprovedFor(st, e, a.ctx)
  {
  }
}
