/** The sovereign runtime and its control plane as code over the stored rows. A call runs without
    interference; the interleavings are the business of the protocol that each step is taken from. */
module RuntimeDesk {
  import opened HusRegistry
  import opened HusRuntime
  import opened Outcomes
  import opened RuntimeAlone

  class Runtime {
    var compilations: map<string, Compilation>
    var runs: map<string, AIRun>
    var actions: map<string, AIAction>
    var identities: set<(string, string, string)>
    var admins: set<(string, int)>
    var readHandlers: set<Action>
    var mutationHandlers: set<Action>
    var verifier: bool
    var records: seq<Record>
    var effects: seq<Context>

    constructor (compilations: map<string, Compilation>, runs: map<string, AIRun>,
                 identities: set<(string, string, string)>, admins: set<(string, int)>)
      ensures Snapshot() == State(compilations, runs, map[], identities, admins, {}, {}, false, [], [], [], [], [])
    {
      this.compilations, this.runs, this.identities, this.admins := compilations, runs, identities, admins;
      actions, readHandlers, mutationHandlers, verifier, records, effects := map[], {}, {}, false, [], [];
    }

    function Snapshot(): State
      reads this
    {
      State(compilations, runs, actions, identities, admins, readHandlers, mutationHandlers, verifier, records,
            effects, [], [], [])
    }

    /** Supersede whatever else is active in the tenant, then activate. */
    method ActivateCompilation(tenant: int, id: string)
      modifies this`compilations
      ensures Snapshot() == old(Activate(Snapshot(), tenant, id))
    {
      if id !in compilations || compilations[id].tenant != tenant { return; }
      if compilations[id].status == Superseded { return; }
      var active := set c | c in compilations && compilations[c].tenant == tenant && compilations[c].status == Active
          && c != id;
      ghost var all := active;
      while active != {}
        invariant compilations.Keys == old(compilations).Keys && active <= all
        invariant forall c :: c in compilations ==>
          compilations[c] == if c in all && c !in active then old(compilations)[c].(status := Superseded)
          else old(compilations)[c]
      {
        var c :| c in active;
        compilations := compilations[c := compilations[c].(status := Superseded)];
        active := active - {c};
      }
      compilations := compilations[id := compilations[id].(status := Active)];
      assert compilations == old(Activate(Snapshot(), tenant, id)).compilations;
    }

    method ProposeAction(id: string, tenant: int, actor: string, run: string, tool: Action, risk: Risk, args: string)
      modifies this`actions
      ensures Snapshot() == old(Propose(Snapshot(), id, tenant, actor, run, tool, risk, args))
    {
      if id in actions || run !in runs || runs[run].tenant != tenant || runs[run].actor != actor { return; }
      var status := PendingApproval;
      if risk == ReadRisk { status := Approved; }
      actions := actions[id := AIAction(tenant, run, tool, risk, args, status, "", None)];
    }

    /** Approve a pending action; a mutation only together with its binding. */
    method ApproveAction(id: string, tenant: int, approver: string, compilation: string, step: string, key: string,
                         source: string, subject: string, issuer: string)
      modifies this`actions
      ensures Snapshot()
              == old(Approve(Snapshot(), id, tenant, approver, compilation, step, key, source, subject, issuer))
    {
      if id !in actions || actions[id].tenant != tenant { return; }
      var a := actions[id];
      if a.status != PendingApproval { return; }
      var binding: Option<Binding> := None;
      if a.risk == MutationRisk {
        if compilation == "" || step == "" || key == "" { return; }
        if compilation !in compilations || compilations[compilation].tenant != tenant
           || compilations[compilation].status != Active
        {
          return;
        }
        if step !in compilations[compilation].steps { return; }
        var bound := compilations[compilation].steps[step].action;
        if bound != a.tool { return; }
        binding := Some(Binding(compilation, step, compilations[compilation].planHash, bound, key, Sha(a.args)));
      }
      actions := actions[id := a.(status := Approved, approvedBy := approver,
                                  provenance := Some(Provenance(source, subject, issuer, binding)))];
    }

    method RegisterReadHandler(a: Action)
      modifies this`readHandlers
      ensures Snapshot() == old(RegisterRead(Snapshot(), a))
    {
      if !Registered(a) || !IsRead(a) { return; }
      readHandlers := readHandlers + {a};
    }

    method RegisterMutationHandler(a: Action)
      modifies this`mutationHandlers
      ensures Snapshot() == old(RegisterMutation(Snapshot(), a))
    {
      if !Registered(a) || IsRead(a) { return; }
      mutationHandlers := mutationHandlers + {a};
    }

    method ConfigureApprovalVerifier()
      modifies this`verifier
      ensures Snapshot() == old(Step(Snapshot(), EvVerifier))
    {
      verifier := true;
    }

    /** `verify_ai_action_approval`, check by check. */
    method VerifyApproval(ctx: Context) returns (ok: bool)
      ensures ok == ApprovalHolds(Snapshot(), ctx)
    {
      if ctx.approvalRef.None? || ctx.approvalRef.value !in actions { return false; }
      var a := actions[ctx.approvalRef.value];
      if a.tenant != ctx.tenant || a.tool != ctx.action || a.status != Approved || a.risk != MutationRisk {
        return false;
      }
      if a.approvedBy == "" || a.provenance.None? { return false; }
      if a.run !in runs || runs[a.run].tenant != ctx.tenant || runs[a.run].actor != ctx.actor { return false; }
      if a.provenance.value.binding.None? || ctx.key.None? { return false; }
      var b := a.provenance.value.binding.value;
      if b.compilation != ctx.compilation || b.step != ctx.step || b.planHash != ctx.planHash { return false; }
      if b.action != ctx.action || b.key != ctx.key.value || b.argsHash != ctx.argsHash { return false; }
      var p := a.provenance.value;
      if p.source != "oidc" || p.subject == "" || p.issuer == "" { return false; }
      if (a.approvedBy, p.issuer, p.subject) !in identities { return false; }
      if Sha(a.args) != ctx.argsHash { return false; }
      ok := (a.approvedBy, ctx.tenant) in admins;
    }

    /** A mutation needs the caller's approval, a valid approval record and a key. */
    method CheckApproval(ctx: Context, approved: bool) returns (allowed: bool)
      ensures allowed == MayRun(Snapshot(), ctx, approved)
    {
      hide ApprovalHolds, IsRead;
      if IsRead(ctx.action) { return true; }
      if !approved || !verifier { return false; }
      allowed := VerifyApproval(ctx);
      if ctx.key.None? { allowed := false; }
    }

    /** The outcome of the registered handler, or a failure when there is none. */
    method CallHandler(ctx: Context, outcome: Outcome) returns (observed: Outcome)
      ensures observed == Observed(Snapshot(), ctx, outcome)
    {
      hide IsRead;
      var handlers := if IsRead(ctx.action) then readHandlers else mutationHandlers;
      observed := outcome;
      if ctx.action !in handlers {
        observed := Failed("no sovereign runtime handler is registered for this capability");
      }
    }

    /** `execute`: approval, then replay or refusal under a used key, then the handler and the record. */
    method Execute(ctx: Context, approved: bool, outcome: Outcome) returns (r: Answer)
      modifies this`records, this`effects
      ensures r == old(AnswerTo(Snapshot(), ctx, approved, outcome))
      ensures if old(Runs(Snapshot(), ctx, approved)) then
                var observed := old(Observed(Snapshot(), ctx, outcome));
                && records == old(records) + [Record(ctx, observed)]
                && effects == if observed.Finished? then old(effects) + [ctx] else old(effects)
              else records == old(records) && effects == old(effects)
    {
      hide FindRecord, SameIntent, MayRun, Observed;
      var allowed := CheckApproval(ctx, approved);
      if !allowed { return Refused; }
      var k := RecordUnder(ctx);
      if k < |records| {
        if SameIntent(records[k].ctx, ctx) && records[k].ctx.argsHash == ctx.argsHash {
          return Returned(k, records[k].outcome, true);
        }
        return Refused;
      }
      var observed := CallHandler(ctx, outcome);
      records := records + [Record(ctx, observed)];
      if observed.Finished? { effects := effects + [ctx]; }
      r := Returned(|records| - 1, observed, false);
    }

    /** `execute_step`: authorize, then execute. */
    method ExecuteStep(tenant: int, actor: string, compilation: string, step: string, approvalRef: Option<string>,
                       key: Option<string>, args: string, approved: bool, outcome: Outcome)
      returns (r: Answer)
      modifies this`records, this`effects
      ensures Snapshot()
              == old(RunAlone(Snapshot(), tenant, actor, compilation, step, approvalRef, key, args, approved,
                              outcome)).(attempts := [])
      ensures Answers(r,
                      old(RunAlone(Snapshot(), tenant, actor, compilation, step, approvalRef, key, args, approved,
                                   outcome)))
    {
      StepsAreAtomic(Snapshot(), tenant, actor, compilation, step, approvalRef, key, args, approved, outcome);
      hide RunAlone, Alone, Authorize, Answers, AnswerTo, Runs, Observed;
      var authorized := Authorize(Snapshot(), tenant, actor, compilation, step, approvalRef, key, args);
      if authorized.None? { return Refused; }
      AloneMeans(Snapshot(), authorized.value, approved, outcome);
      r := Execute(authorized.value, approved, outcome);
    }

    /** The committed record under the context's key, or the number of records. */
    method RecordUnder(ctx: Context) returns (k: nat)
      ensures k == FindRecord(records, ctx)
    {
      k := 0;
      while k < |records|
        invariant k <= |records| && FindRecord(records, ctx) == k + FindRecord(records[k..], ctx)
      {
        if SameKey(records[k].ctx, ctx) { return; }
        assert records[k..][1..] == records[k + 1..];
        k := k + 1;
      }
    }
  }
}
