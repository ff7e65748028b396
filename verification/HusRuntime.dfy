/** The sovereign runtime as a protocol: approvals, concurrent execution attempts, and the unique
    constraint on (tenant, compilation, idempotency key).

    A state holds the committed rows and the attempts in flight; an event is one step of one attempt
    or of the control plane. A hash is modelled as injective. */
module HusRuntime {
  import opened HusRegistry
  import opened Outcomes

  datatype Digest = Sha(of: string)

  datatype CompilationStatus = Compiled | Active | Superseded

  datatype PlanStep = PlanStep(action: Action, read: bool, idempotent: bool)

  datatype Compilation = Compilation(tenant: int, status: CompilationStatus, planHash: Digest,
                                     steps: map<string, PlanStep>)

  datatype Risk = ReadRisk | MutationRisk | AdminRisk

  datatype AIRun = AIRun(tenant: int, actor: string)

  datatype Binding = Binding(compilation: string, step: string, planHash: Digest, action: Action, key: string,
                             argsHash: Digest)

  datatype Provenance = Provenance(source: string, subject: string, issuer: string, binding: Option<Binding>)

  datatype ActionStatus = PendingApproval | Approved

  datatype AIAction = AIAction(
    tenant: int, run: string, tool: Action, risk: Risk, args: string, status: ActionStatus,
    approvedBy: string, provenance: Option<Provenance>)

  datatype Context = Context(
    tenant: int, actor: string, compilation: string, planHash: Digest, step: string, action: Action,
    approvalRef: Option<string>, key: Option<string>, argsHash: Digest)

  datatype Outcome = Finished(output: string) | Failed(error: string)

  /** A committed execution record: the context it was written for, and how its handler ended. */
  datatype Record = Record(ctx: Context, outcome: Outcome)

  datatype Phase =
    | Authorized
    | Verified
    | Missed
    | Holding
    | Ran(outcome: Outcome)
    | Done(record: nat, replayed: bool)
    | Rejected
    | Crashed

  datatype Attempt = Attempt(ctx: Context, approved: bool, phase: Phase)

  /** An activation in flight: the plan whose row it has locked, the other active plans that it has read,
      and how many activations had been committed by then. */
  datatype Activation = Activation(tenant: int, target: string, others: set<string>, since: nat, open: bool)

  /** `activated` lists the committed activations, in the order of their commits. */
  datatype State = State(
    compilations: map<string, Compilation>, runs: map<string, AIRun>, actions: map<string, AIAction>,
    identities: set<(string, string, string)>, admins: set<(string, int)>,
    readHandlers: set<Action>, mutationHandlers: set<Action>, verifier: bool,
    records: seq<Record>, effects: seq<Context>, attempts: seq<Attempt>,
    activations: seq<Activation>, activated: seq<(int, string)>)

  // ---------------------------------------------------------------- control plane

  /** `compile_and_store`: a new plan is compiled and not active. */
  function Store(st: State, id: string, tenant: int, planHash: Digest, steps: map<string, PlanStep>): State {
    if id in st.compilations then st
    else st.(compilations := st.compilations[id := Compilation(tenant, Compiled, planHash, steps)])
  }

  /** The plan may still become active, or stay so. */
  predicate Activatable(st: State, tenant: int, id: string) {
    id in st.compilations && st.compilations[id].tenant == tenant && st.compilations[id].status != Superseded
  }

  function ActiveOthers(st: State, tenant: int, id: string): set<string> {
    set c | c in st.compilations && c != id && st.compilations[c].tenant == tenant
            && st.compilations[c].status == Active
  }

  /** Some activation in flight has locked the plan's row. */
  predicate PlanLocked(st: State, id: string) {
    exists k :: 0 <= k < |st.activations| && st.activations[k].open && st.activations[k].target == id
  }

  /** The first half of `activate`: lock the plan's row, or wait for it, and read the active plans. */
  function ReadPlans(st: State, tenant: int, id: string): State {
    if !Activatable(st, tenant, id) || PlanLocked(st, id) then st
    else st.(activations := st.activations
             + [Activation(tenant, id, ActiveOthers(st, tenant, id), |st.activated|, true)])
  }

  /** The rows that were read can be locked: nobody else activates one of them. */
  predicate MayCommitPlan(st: State, k: nat) {
    && k < |st.activations| && st.activations[k].open
    && forall c :: c in st.activations[k].others ==> !PlanLocked(st, c)
  }

  /** The statuses after an activation: of the plans that were read, those still active are superseded. */
  function Switched(compilations: map<string, Compilation>, target: string,
                    others: set<string>): map<string, Compilation>
  {
    map c | c in compilations ::
      if c == target then compilations[c].(status := Active)
      else if c in others && compilations[c].status == Active then compilations[c].(status := Superseded)
      else compilations[c]
  }

  /** The second half of `activate`: lock the rows that were read, write and commit. A plan that became
      active after the read is not among those rows. */
  function CommitPlan(st: State, k: nat): State {
    if !MayCommitPlan(st, k) then st
    else
      var a := st.activations[k];
      st.(compilations := Switched(st.compilations, a.target, a.others),
          activations := st.activations[k := a.(open := false)],
          activated := st.activated + [(a.tenant, a.target)])
  }

  /** The transaction of an activation is rolled back. */
  function AbandonPlan(st: State, k: nat): State {
    if k >= |st.activations| then st else st.(activations := st.activations[k := st.activations[k].(open := false)])
  }

  /** `activate` without interference: supersedes every other active compilation of the tenant. */
  function Activate(st: State, tenant: int, id: string): State {
    if id !in st.compilations || st.compilations[id].tenant != tenant || st.compilations[id].status == Superseded then
      st
    else
      st.(compilations := map c | c in st.compilations ::
        if c == id then st.compilations[c].(status := Active)
        else if st.compilations[c].tenant == tenant && st.compilations[c].status == Active then
          st.compilations[c].(status := Superseded)
        else st.compilations[c])
  }

  function Propose(st: State, id: string, tenant: int, actor: string, run: string, tool: Action, risk: Risk,
                   args: string): State
  {
    if id in st.actions || run !in st.runs || st.runs[run] != AIRun(tenant, actor) then st
    else
      var a := AIAction(tenant, run, tool, risk, args, if risk == ReadRisk then Approved else PendingApproval, "",
                        None);
      st.(actions := st.actions[id := a])
  }

  predicate HasActiveStep(st: State, tenant: int, compilation: string, step: string) {
    && compilation in st.compilations && st.compilations[compilation].tenant == tenant
    && st.compilations[compilation].status == Active && step in st.compilations[compilation].steps
  }

  /** `approve_action`: a mutation is bound to one step of one active plan, one key and its arguments. */
  function Approve(st: State, id: string, tenant: int, approver: string, compilation: string, step: string, key: string,
                   source: string, subject: string, issuer: string): State {
    if id !in st.actions || st.actions[id].tenant != tenant || st.actions[id].status != PendingApproval then st
    else
      var a := st.actions[id];
      if a.risk == MutationRisk then
        if compilation == "" || step == "" || key == "" || !HasActiveStep(st, tenant, compilation, step) then st
        else if st.compilations[compilation].steps[step].action != a.tool then st
        else
          var b := Binding(compilation, step, st.compilations[compilation].planHash, a.tool, key, Sha(a.args));
          st.(actions := st.actions[id := a.(status := Approved, approvedBy := approver,
                                             provenance := Some(Provenance(source, subject, issuer, Some(b))))])
      else
        st.(actions := st.actions[id := a.(status := Approved, approvedBy := approver,
                                           provenance := Some(Provenance(source, subject, issuer, None)))])
  }

  function RegisterRead(st: State, a: Action): State {
    if Registered(a) && IsRead(a) then st.(readHandlers := st.readHandlers + {a}) else st
  }

  function RegisterMutation(st: State, a: Action): State {
    if Registered(a) && !IsRead(a) then st.(mutationHandlers := st.mutationHandlers + {a}) else st
  }

  // ---------------------------------------------------------------- one execution attempt

  /** An empty reference or key counts as none. */
  function Given(o: Option<string>): Option<string> { if o == Some("") then None else o }

  /** `authorize`. */
  function Authorize(st: State, tenant: int, actor: string, compilation: string, step: string,
                     approvalRef: Option<string>,
                     key: Option<string>, args: string): Option<Context> {
    if !HasActiveStep(st, tenant, compilation, step) then None
    else
      var c := st.compilations[compilation];
      var s := c.steps[step];
      if !Registered(s.action) then None
      else if !s.read && !s.idempotent then None
      else if !s.read && Given(approvalRef).None? then None
      else Some(Context(tenant, actor, compilation, c.planHash, step, s.action, Given(approvalRef), Given(key),
                        Sha(args)))
  }

  function Begin(st: State, tenant: int, actor: string, compilation: string, step: string, approvalRef: Option<string>,
                 key: Option<string>, args: string, approved: bool): State {
    var ctx := Authorize(st, tenant, actor, compilation, step, approvalRef, key, args);
    if ctx.None? then st else st.(attempts := st.attempts + [Attempt(ctx.value, approved, Authorized)])
  }

  /** The six fields of the approval's binding, as this execution needs them. */
  function Needed(ctx: Context): Option<Binding> {
    if ctx.key.None? then None
    else Some(Binding(ctx.compilation, ctx.step, ctx.planHash, ctx.action, ctx.key.value, ctx.argsHash))
  }

  /** The approved action that the context names, bound to exactly this execution. */
  predicate Licensed(actions: map<string, AIAction>, runs: map<string, AIRun>, ctx: Context) {
    && ctx.approvalRef.Some? && ctx.approvalRef.value in actions
    && var a := actions[ctx.approvalRef.value];
       && a.tenant == ctx.tenant && a.tool == ctx.action && a.status == Approved && a.risk == MutationRisk
       && a.run in runs && runs[a.run] == AIRun(ctx.tenant, ctx.actor)
       && a.provenance.Some? && a.provenance.value.binding.Some? && a.provenance.value.binding == Needed(ctx)
       && Sha(a.args) == ctx.argsHash
  }

  /** `verify_ai_action_approval`: the licence, and who gave it. */
  predicate ApprovalHolds(st: State, ctx: Context) {
    && Licensed(st.actions, st.runs, ctx)
    && var a := st.actions[ctx.approvalRef.value];
       var p := a.provenance.value;
       && a.approvedBy != "" && p.source == "oidc" && p.subject != "" && p.issuer != ""
       && (a.approvedBy, p.issuer, p.subject) in st.identities
       && (a.approvedBy, ctx.tenant) in st.admins
  }

  function SetPhase(st: State, i: nat, p: Phase): State
    requires i < |st.attempts|
  {
    st.(attempts := st.attempts[i := st.attempts[i].(phase := p)])
  }

  predicate InPhase(st: State, i: nat, p: Phase) { i < |st.attempts| && st.attempts[i].phase == p }

  function Verify(st: State, i: nat): State {
    if !InPhase(st, i, Authorized) then st
    else
      var a := st.attempts[i];
      if IsRead(a.ctx.action) || (a.approved && st.verifier && ApprovalHolds(st, a.ctx) && a.ctx.key.Some?) then
        SetPhase(st, i, Verified)
      else SetPhase(st, i, Rejected)
  }

  predicate SameKey(a: Context, b: Context) {
    a.tenant == b.tenant && a.compilation == b.compilation && a.key == b.key && a.key.Some?
  }

  predicate SameIntent(a: Context, b: Context) {
    a.actor == b.actor && a.action == b.action && a.step == b.step && a.planHash == b.planHash
  }

  /** The committed record under the context's key, or the number of records. */
  function FindRecord(records: seq<Record>, ctx: Context): (k: nat)
    ensures k <= |records|
    ensures k < |records| ==> SameKey(records[k].ctx, ctx)
    ensures k == |records| ==> forall j :: 0 <= j < |records| ==> !SameKey(records[j].ctx, ctx)
  {
    if records == [] then 0
    else if SameKey(records[0].ctx, ctx) then 0
    else 1 + FindRecord(records[1..], ctx)
  }

  /** A repeat of a committed execution returns it; anything else under its key is refused. */
  function Replay(st: State, i: nat, k: nat): State
    requires i < |st.attempts| && k < |st.records|
  {
    var ctx := st.attempts[i].ctx;
    if SameIntent(st.records[k].ctx, ctx) && st.records[k].ctx.argsHash == ctx.argsHash then
      SetPhase(st, i, Done(k, true))
    else SetPhase(st, i, Rejected)
  }

  /** `_existing_replay` only looks for records of the same actor and action. */
  function Lookup(st: State, i: nat): State {
    if !InPhase(st, i, Verified) then st
    else
      var ctx := st.attempts[i].ctx;
      var k := FindRecord(st.records, ctx);
      if k < |st.records| && st.records[k].ctx.actor == ctx.actor && st.records[k].ctx.action == ctx.action then
        Replay(st, i, k)
      else SetPhase(st, i, Missed)
  }

  predicate Holds(a: Attempt) { a.phase == Holding || a.phase.Ran? }

  /** Some other transaction has inserted the key and not committed. */
  predicate KeyHeld(st: State, i: nat)
    requires i < |st.attempts|
  {
    exists j :: 0 <= j < |st.attempts| && j != i && Holds(st.attempts[j])
                && SameKey(st.attempts[j].ctx, st.attempts[i].ctx)
  }

  /** The insert waits while the key is held; on a violation it falls back to the committed record. */
  function Insert(st: State, i: nat): State {
    if !InPhase(st, i, Missed) || KeyHeld(st, i) then st
    else
      var k := FindRecord(st.records, st.attempts[i].ctx);
      if k < |st.records| then Replay(st, i, k) else SetPhase(st, i, Holding)
  }

  /** The handler runs inside a savepoint; without a registered handler the execution fails. */
  function Handle(st: State, i: nat, outcome: Outcome): State {
    if !InPhase(st, i, Holding) then st
    else
      var a := st.attempts[i].ctx.action;
      var handlers := if IsRead(a) then st.readHandlers else st.mutationHandlers;
      SetPhase(st, i, Ran(if a in handlers then outcome
                          else Failed("no sovereign runtime handler is registered for this capability")))
  }

  /** The record becomes visible together with the handler's effect, or with its failure. */
  function Commit(st: State, i: nat): State {
    if i >= |st.attempts| || !st.attempts[i].phase.Ran? then st
    else
      var a := st.attempts[i];
      SetPhase(st, i, Done(|st.records|, false)).(
        records := st.records + [Record(a.ctx, a.phase.outcome)],
        effects := if a.phase.outcome.Finished? then st.effects + [a.ctx] else st.effects)
  }

  /** The process dies: whatever it had not committed is gone. */
  function Crash(st: State, i: nat): State {
    if i >= |st.attempts| || st.attempts[i].phase.Done? || st.attempts[i].phase.Rejected? then st
    else SetPhase(st, i, Crashed)
  }

  // ---------------------------------------------------------------- interleavings

  datatype Event =
    | EvStore(id: string, tenant: int, planHash: Digest, steps: map<string, PlanStep>)
    | EvReadPlans(tenant: int, compilation: string)
    | EvCommitPlan(k: nat)
    | EvAbandonPlan(k: nat)
    | EvPropose(id: string, tenant: int, actor: string, run: string, tool: Action, risk: Risk, args: string)
    | EvApprove(id: string, tenant: int, approver: string, compilation: string, step: string, boundKey: string,
                source: string, subject: string, issuer: string)
    | EvAdmins(admins: set<(string, int)>)
    | EvIdentities(identities: set<(string, string, string)>)
    | EvRegisterRead(action: Action)
    | EvRegisterMutation(action: Action)
    | EvVerifier
    | EvBegin(tenant: int, actor: string, compilation: string, step: string, approvalRef: Option<string>,
              key: Option<string>, args: string, approved: bool)
    | EvVerify(i: nat)
    | EvLookup(i: nat)
    | EvInsert(i: nat)
    | EvHandle(i: nat, outcome: Outcome)
    | EvCommit(i: nat)
    | EvCrash(i: nat)

  function Step(st: State, e: Event): State {
    match e
    case EvStore(id, tenant, planHash, steps) => Store(st, id, tenant, planHash, steps)
    case EvReadPlans(tenant, compilation) => ReadPlans(st, tenant, compilation)
    case EvCommitPlan(k) => CommitPlan(st, k)
    case EvAbandonPlan(k) => AbandonPlan(st, k)
    case EvPropose(id, tenant, actor, run, tool, risk, args) => Propose(st, id, tenant, actor, run, tool, risk, args)
    case EvApprove(id, tenant, approver, compilation, step, key, source, subject, issuer) =>
      Approve(st, id, tenant, approver, compilation, step, key, source, subject, issuer)
    case EvAdmins(admins) => st.(admins := admins)
    case EvIdentities(identities) => st.(identities := identities)
    case EvRegisterRead(a) => RegisterRead(st, a)
    case EvRegisterMutation(a) => RegisterMutation(st, a)
    case EvVerifier => st.(verifier := true)
    case EvBegin(tenant, actor, compilation, step, approvalRef, key, args, approved) =>
      Begin(st, tenant, actor, compilation, step, approvalRef, key, args, approved)
    case EvVerify(i) => Verify(st, i)
    case EvLookup(i) => Lookup(st, i)
    case EvInsert(i) => Insert(st, i)
    case EvHandle(i, outcome) => Handle(st, i, outcome)
    case EvCommit(i) => Commit(st, i)
    case EvCrash(i) => Crash(st, i)
  }

  function Run(st: State, events: seq<Event>): State {
    if events == [] then st else Step(Run(st, events[..|events| - 1]), events[|events| - 1])
  }

  /** Nothing executed yet, and no activation in flight. */
  ghost predicate Start(st: State) {
    && st.records == [] && st.effects == [] && st.attempts == [] && st.actions == map[]
    && st.readHandlers == {} && st.mutationHandlers == {} && st.activations == [] && st.activated == []
  }

  // ---------------------------------------------------------------- the invariant

  ghost predicate AttemptInv(st: State, a: Attempt) {
    && (a.phase in {Verified, Missed, Holding} || a.phase.Ran? ==>
          IsRead(a.ctx.action) || Licensed(st.actions, st.runs, a.ctx))
    && (a.phase.Ran? && a.phase.outcome.Finished? ==>
          a.ctx.action in if IsRead(a.ctx.action) then st.readHandlers else st.mutationHandlers)
    && (Holds(a) ==> FindRecord(st.records, a.ctx) == |st.records|)
    && (a.phase.Done? ==>
          && a.phase.record < |st.records|
          && st.records[a.phase.record].ctx.(approvalRef := a.ctx.approvalRef) == a.ctx)
  }

  ghost predicate EffectInv(st: State, e: Context) {
    && (exists r :: r in st.records && r.ctx == e && r.outcome.Finished?)
    && (IsRead(e.action) || Licensed(st.actions, st.runs, e))
    && e.action in if IsRead(e.action) then st.readHandlers else st.mutationHandlers
  }

  ghost predicate Inv(st: State) {
    && (forall a :: a in st.attempts ==> AttemptInv(st, a))
    && (forall i, j :: 0 <= i < j < |st.attempts| && Holds(st.attempts[i]) && Holds(st.attempts[j]) ==>
        !SameKey(st.attempts[i].ctx, st.attempts[j].ctx))
    && (forall i, j :: 0 <= i < j < |st.records| ==> !SameKey(st.records[i].ctx, st.records[j].ctx))
    && (forall e :: e in st.effects ==> EffectInv(st, e))
    && (forall i, j :: 0 <= i < j < |st.effects| ==> !SameKey(st.effects[i], st.effects[j]))
    && (forall a :: a in st.readHandlers + st.mutationHandlers ==> Registered(a))
  }

  lemma StartIsInv(st: State)
    requires Start(st)
    ensures Inv(st)
  {
  }

  // ---------------------------------------------------------------- what grows and what stays

  /** Approved actions, runs and handlers are never taken back, and committed rows never change. */
  ghost predicate Grows(st: State, st': State) {
    && st'.runs == st.runs
    && (forall id :: id in st.actions && st.actions[id].status == Approved ==>
        id in st'.actions && st'.actions[id] == st.actions[id])
    && st.readHandlers <= st'.readHandlers && st.mutationHandlers <= st'.mutationHandlers
    && |st.records| <= |st'.records| && (forall k :: 0 <= k < |st.records| ==> st'.records[k] == st.records[k])
  }

  lemma LicenceStays(st: State, st': State, ctx: Context)
    requires Grows(st, st') && Licensed(st.actions, st.runs, ctx)
    ensures Licensed(st'.actions, st'.runs, ctx)
  {
  }

  lemma EffectStays(st: State, st': State, e: Context)
    requires Grows(st, st') && EffectInv(st, e)
    ensures EffectInv(st', e)
  {
    var r :| r in st.records && r.ctx == e && r.outcome.Finished?;
    var k :| 0 <= k < |st.records| && st.records[k] == r;
    assert st'.records[k] in st'.records;
    if !IsRead(e.action) { LicenceStays(st, st', e); }
    hide Licensed;
  }

  lemma AttemptStays(st: State, st': State, a: Attempt)
    requires Grows(st, st') && AttemptInv(st, a) && st'.records == st.records
    ensures AttemptInv(st', a)
  {
    if Licensed(st.actions, st.runs, a.ctx) { LicenceStays(st, st', a.ctx); }
    hide Licensed;
  }

  // ---------------------------------------------------------------- steps of the control plane

  ghost predicate HandlersInv(st: State) {
    forall a :: a in st.readHandlers + st.mutationHandlers ==> Registered(a)
  }

  lemma ControlKeepsInv(st: State, st': State)
    requires Inv(st) && Grows(st, st') && st'.records == st.records && st'.effects == st.effects
    requires st'.attempts == st.attempts
    requires HandlersInv(st')
    ensures Inv(st')
  {
    hide Grows, AttemptInv, EffectInv;
    forall a | a in st.attempts ensures AttemptInv(st', a) { AttemptStays(st, st', a); }
    forall e | e in st.effects ensures EffectInv(st', e) { EffectStays(st, st', e); }
  }

  lemma ProposeKeepsInv(st: State, id: string, tenant: int, actor: string, run: string, tool: Action, risk: Risk,
                        args: string)
    requires Inv(st)
    ensures Inv(Propose(st, id, tenant, actor, run, tool, risk, args))
  {
    hide AttemptInv, EffectInv, Registered;
    ControlKeepsInv(st, Propose(st, id, tenant, actor, run, tool, risk, args));
  }

  lemma ApproveKeepsInv(st: State, id: string, tenant: int, approver: string, compilation: string, step: string,
                        key: string,
                        source: string, subject: string, issuer: string)
    requires Inv(st)
    ensures Inv(Approve(st, id, tenant, approver, compilation, step, key, source, subject, issuer))
  {
    hide AttemptInv, EffectInv, Registered, HasActiveStep;
    ControlKeepsInv(st, Approve(st, id, tenant, approver, compilation, step, key, source, subject, issuer));
  }

  /** The steps of an activation, whatever they do to the plans. */
  lemma PlansKeepInv(st: State, e: Event)
    requires Inv(st) && (e.EvStore? || e.EvReadPlans? || e.EvCommitPlan? || e.EvAbandonPlan?)
    ensures Inv(Step(st, e))
  {
    hide AttemptInv, EffectInv, Registered, Activatable, ActiveOthers, PlanLocked, MayCommitPlan, Switched;
    ControlKeepsInv(st, Step(st, e));
  }

  lemma ConfigurationKeepsInv(st: State, e: Event)
    requires Inv(st) && (e.EvAdmins? || e.EvIdentities? || e.EvRegisterRead? || e.EvRegisterMutation? || e.EvVerifier?)
    ensures Inv(Step(st, e))
  {
    hide Propose, Approve, Begin, Verify, Lookup, Insert, Handle, Commit, Crash, AttemptInv, EffectInv, IsRead,
         Registered;
    ControlKeepsInv(st, Step(st, e));
  }

  // ---------------------------------------------------------------- steps of an attempt

  lemma SetPhaseKeepsInv(st: State, i: nat, p: Phase)
    requires Inv(st) && i < |st.attempts| && AttemptInv(st, st.attempts[i].(phase := p))
    requires Holds(st.attempts[i].(phase := p)) ==> Holds(st.attempts[i]) || !KeyHeld(st, i)
    ensures Inv(SetPhase(st, i, p))
  {
    hide AttemptInv, EffectInv, Registered;
    var st' := SetPhase(st, i, p);
    assert Grows(st, st');
    forall e | e in st'.effects ensures EffectInv(st', e) { EffectStays(st, st', e); }
    forall a | a in st'.attempts ensures AttemptInv(st', a) {
      assert a in st.attempts || a == st.attempts[i].(phase := p);
      AttemptStays(st, st', a);
    }
  }

  lemma BeginKeepsInv(st: State, tenant: int, actor: string, compilation: string, step: string,
                      approvalRef: Option<string>,
                      key: Option<string>, args: string, approved: bool)
    requires Inv(st)
    ensures Inv(Begin(st, tenant, actor, compilation, step, approvalRef, key, args, approved))
  {
    hide EffectInv, Registered, Authorize, Licensed;
    var st' := Begin(st, tenant, actor, compilation, step, approvalRef, key, args, approved);
    assert Grows(st, st');
    forall e | e in st'.effects ensures EffectInv(st', e) { EffectStays(st, st', e); }
    forall a | a in st'.attempts ensures AttemptInv(st', a) {
      if a in st.attempts { AttemptStays(st, st', a); }
    }
  }

  lemma VerifyKeepsInv(st: State, i: nat)
    requires Inv(st)
    ensures Inv(Verify(st, i))
  {
    hide EffectInv, Registered, Licensed, IsRead;
    if InPhase(st, i, Authorized) {
      var p := Verify(st, i).attempts[i].phase;
      hide Inv;
      SetPhaseKeepsInv(st, i, p);
    }
  }

  lemma ReplayKeepsInv(st: State, i: nat, k: nat)
    requires Inv(st) && i < |st.attempts| && k < |st.records| && SameKey(st.records[k].ctx, st.attempts[i].ctx)
    ensures Inv(Replay(st, i, k))
  {
    hide Inv, EffectInv, Licensed;
    SetPhaseKeepsInv(st, i, Replay(st, i, k).attempts[i].phase);
  }

  lemma LookupKeepsInv(st: State, i: nat)
    requires Inv(st)
    ensures Inv(Lookup(st, i))
  {
    if InPhase(st, i, Verified) {
      assert AttemptInv(st, st.attempts[i]);
      hide Inv, Replay, Licensed, FindRecord, IsRead;
      var ctx := st.attempts[i].ctx;
      var k := FindRecord(st.records, ctx);
      if k < |st.records| && st.records[k].ctx.actor == ctx.actor && st.records[k].ctx.action == ctx.action {
        ReplayKeepsInv(st, i, k);
      } else {
        SetPhaseKeepsInv(st, i, Missed);
      }
    }
  }

  lemma InsertKeepsInv(st: State, i: nat)
    requires Inv(st)
    ensures Inv(Insert(st, i))
  {
    if InPhase(st, i, Missed) && !KeyHeld(st, i) {
      assert AttemptInv(st, st.attempts[i]);
      hide Inv, Replay, Licensed, FindRecord, IsRead, KeyHeld;
      var k := FindRecord(st.records, st.attempts[i].ctx);
      if k < |st.records| { ReplayKeepsInv(st, i, k); } else { SetPhaseKeepsInv(st, i, Holding); }
    }
  }

  lemma HandleKeepsInv(st: State, i: nat, outcome: Outcome)
    requires Inv(st)
    ensures Inv(Handle(st, i, outcome))
  {
    if InPhase(st, i, Holding) {
      assert AttemptInv(st, st.attempts[i]);
      var p := Handle(st, i, outcome).attempts[i].phase;
      hide Inv, Licensed, FindRecord, IsRead, KeyHeld;
      SetPhaseKeepsInv(st, i, p);
    }
  }

  lemma CrashKeepsInv(st: State, i: nat)
    requires Inv(st)
    ensures Inv(Crash(st, i))
  {
    hide Inv;
    if Crash(st, i) != st { SetPhaseKeepsInv(st, i, Crashed); }
  }

  lemma NoRecord(records: seq<Record>, ctx: Context)
    ensures FindRecord(records, ctx) == |records| <==> forall r :: r in records ==> !SameKey(r.ctx, ctx)
  {
    if k :| 0 <= k < |records| && SameKey(records[k].ctx, ctx) { assert records[k] in records; }
  }

  /** The committed record does not take the key of anyone else who holds one. */
  lemma OthersStillFree(st: State, i: nat, j: nat, r: Record)
    requires Inv(st) && i < |st.attempts| && j < |st.attempts| && i != j && Holds(st.attempts[i])
    requires Holds(st.attempts[j])
    requires r.ctx == st.attempts[i].ctx
    ensures FindRecord(st.records + [r], st.attempts[j].ctx) == |st.records| + 1
  {
    var ctx := st.attempts[j].ctx;
    assert AttemptInv(st, st.attempts[j]);
    assert !SameKey(r.ctx, ctx);
    hide Inv, Holds, FindRecord, SameKey;
    NoRecord(st.records, ctx);
    NoRecord(st.records + [r], ctx);
  }

  lemma CommitKeepsInv(st: State, i: nat)
    requires Inv(st)
    ensures Inv(Commit(st, i))
  {
    var st' := Commit(st, i);
    if st' != st {
      var a := st.attempts[i];
      var r := Record(a.ctx, a.phase.outcome);
      assert AttemptInv(st, a);
      NoRecord(st.records, a.ctx);
      assert Grows(st, st');
      assert st'.records[|st.records|] == r;
      forall j | 0 <= j < |st'.attempts| ensures AttemptInv(st', st'.attempts[j]) {
        CommitAttempt(st, i, j);
      }
      forall e | e in st'.effects ensures EffectInv(st', e) {
        CommitEffect(st, i, e);
      }
      hide AttemptInv, EffectInv, Registered, Licensed, IsRead, FindRecord;
      assert forall x :: x in st'.attempts ==> AttemptInv(st', x);
      forall k | 0 <= k < |st.records| ensures !SameKey(st.records[k].ctx, a.ctx) {
        assert st.records[k] in st.records;
      }
      EffectsStayApart(st, a.ctx);
    }
  }

  lemma CommitAttempt(st: State, i: nat, j: nat)
    requires Inv(st) && i < |st.attempts| && j < |st.attempts| && st.attempts[i].phase.Ran?
    ensures AttemptInv(Commit(st, i), Commit(st, i).attempts[j])
  {
    var st' := Commit(st, i);
    var a := st.attempts[j];
    assert AttemptInv(st, a);
    if j != i && Holds(a) { OthersStillFree(st, i, j, st'.records[|st.records|]); }
    hide Inv, Licensed, IsRead, FindRecord;
  }

  lemma CommitEffect(st: State, i: nat, e: Context)
    requires Inv(st) && i < |st.attempts| && st.attempts[i].phase.Ran? && e in Commit(st, i).effects
    ensures EffectInv(Commit(st, i), e)
  {
    var st' := Commit(st, i);
    assert AttemptInv(st, st.attempts[i]);
    if e in st.effects {
      assert EffectInv(st, e) && Grows(st, st');
      hide Inv, EffectInv, Commit;
      EffectStays(st, st', e);
    } else {
      assert st'.records[|st.records|] in st'.records;
      hide Inv, Licensed, IsRead, FindRecord;
    }
  }

  /** No effect was ever committed under a key that is still free. */
  lemma EffectsStayApart(st: State, ctx: Context)
    requires Inv(st) && forall r :: r in st.records ==> !SameKey(r.ctx, ctx)
    ensures forall k :: 0 <= k < |st.effects| ==> !SameKey(st.effects[k], ctx)
  {
    forall k | 0 <= k < |st.effects| ensures !SameKey(st.effects[k], ctx) {
      assert EffectInv(st, st.effects[k]);
    }
  }

  lemma StepKeepsInv(st: State, e: Event)
    requires Inv(st)
    ensures Inv(Step(st, e))
  {
    hide Inv, Propose, Approve, RegisterRead, RegisterMutation, Begin, Verify, Lookup, Insert, Handle, Commit, Crash;
    match e
    case EvStore(_, _, _, _) => PlansKeepInv(st, e);
    case EvReadPlans(_, _) => PlansKeepInv(st, e);
    case EvCommitPlan(_) => PlansKeepInv(st, e);
    case EvAbandonPlan(_) => PlansKeepInv(st, e);
    case EvPropose(id, tenant, actor, run, tool, risk, args) =>
      ProposeKeepsInv(st, id, tenant, actor, run, tool, risk, args);
    case EvApprove(id, tenant, approver, compilation, step, key, source, subject, issuer) =>
      ApproveKeepsInv(st, id, tenant, approver, compilation, step, key, source, subject, issuer);
    case EvBegin(tenant, actor, compilation, step, approvalRef, key, args, approved) =>
      BeginKeepsInv(st, tenant, actor, compilation, step, approvalRef, key, args, approved);
    case EvVerify(i) => VerifyKeepsInv(st, i);
    case EvLookup(i) => LookupKeepsInv(st, i);
    case EvInsert(i) => InsertKeepsInv(st, i);
    case EvHandle(i, outcome) => HandleKeepsInv(st, i, outcome);
    case EvCommit(i) => CommitKeepsInv(st, i);
    case EvCrash(i) => CrashKeepsInv(st, i);
    case _ => ConfigurationKeepsInv(st, e);
  }

  lemma {:induction false} RunKeepsInv(st: State, events: seq<Event>)
    requires Inv(st)
    ensures Inv(Run(st, events))
  {
    hide Inv, Step;
    if events != [] {
      RunKeepsInv(st, events[..|events| - 1]);
      StepKeepsInv(Run(st, events[..|events| - 1]), events[|events| - 1]);
    }
  }

  // ---------------------------------------------------------------- main results, over every interleaving

  /** Under one (tenant, compilation, key) at most one handler effect is ever committed, and only if the
      key's one record says that it finished. */
  lemma OneEffectPerKey(start: State, events: seq<Event>)
    requires Start(start)
    ensures var st := Run(start, events);
            && (forall i, j :: 0 <= i < j < |st.effects| && st.effects[i].key.Some? ==>
                (st.effects[i].tenant, st.effects[i].compilation, st.effects[i].key)
                != (st.effects[j].tenant, st.effects[j].compilation, st.effects[j].key))
            && (forall i, j :: 0 <= i < j < |st.records| && st.records[i].ctx.key.Some? ==>
                (st.records[i].ctx.tenant, st.records[i].ctx.compilation, st.records[i].ctx.key)
                != (st.records[j].ctx.tenant, st.records[j].ctx.compilation, st.records[j].ctx.key))
            && (forall e :: e in st.effects ==> exists r :: r in st.records && r.ctx == e && r.outcome.Finished?)
            && (forall e, r :: e in st.effects && r in st.records && e.key.Some?
                               && (e.tenant, e.compilation, e.key) == (r.ctx.tenant, r.ctx.compilation, r.ctx.key) ==>
                r.ctx == e && r.outcome.Finished?)
  {
    StartIsInv(start);
    RunKeepsInv(start, events);
    var st := Run(start, events);
    hide Run, Start, AttemptInv, Registered, Licensed, IsRead;
    forall e | e in st.effects
      ensures exists r :: r in st.records && r.ctx == e && r.outcome.Finished?
      ensures forall r :: r in st.records && SameKey(e, r.ctx) ==> r.ctx == e && r.outcome.Finished?
    {
      assert EffectInv(st, e);
      var own :| own in st.records && own.ctx == e && own.outcome.Finished?;
      forall r | r in st.records && SameKey(e, r.ctx) ensures r == own { SameRecord(st, own, r); }
    }
  }

  lemma SameRecord(st: State, a: Record, b: Record)
    requires Inv(st) && a in st.records && b in st.records && SameKey(a.ctx, b.ctx)
    ensures a == b
  {
    var i :| 0 <= i < |st.records| && st.records[i] == a;
    var j :| 0 <= j < |st.records| && st.records[j] == b;
  }

  /** Every committed mutation was licensed by an approved action of the same tenant and actor, bound to
      its compilation, step, plan hash, action, key and arguments; and its handler was registered for a
      capability of the registry. */
  lemma EffectsAreLicensed(start: State, events: seq<Event>)
    requires Start(start)
    ensures var st := Run(start, events);
            forall e :: e in st.effects ==>
              && Registered(e.action)
              && (!IsRead(e.action) ==> Licensed(st.actions, st.runs, e) && e.action in st.mutationHandlers)
  {
    StartIsInv(start);
    RunKeepsInv(start, events);
    var st := Run(start, events);
    hide Run, Start, AttemptInv, Registered, Licensed, IsRead;
    assert forall e :: e in st.effects ==> EffectInv(st, e);
  }

  /** One approved action licenses at most one committed mutation. */
  lemma OneEffectPerAction(start: State, events: seq<Event>, i: nat, j: nat)
    requires Start(start) && i < j < |Run(start, events).effects|
    requires !IsRead(Run(start, events).effects[i].action) && !IsRead(Run(start, events).effects[j].action)
    ensures Run(start, events).effects[i].approvalRef != Run(start, events).effects[j].approvalRef
  {
    OneEffectPerKey(start, events);
    EffectsAreLicensed(start, events);
    var st := Run(start, events);
    hide Run, Start, Registered, IsRead;
    assert st.effects[i] in st.effects && st.effects[j] in st.effects;
  }

  lemma DoneMeansRecord(st: State, a: Attempt)
    requires Inv(st) && a in st.attempts && a.phase.Done?
    ensures a.phase.record < |st.records| && st.records[a.phase.record].ctx.(approvalRef := a.ctx.approvalRef) == a.ctx
  {
    assert AttemptInv(st, a);
  }

  lemma OneRecordPerKey(st: State, k: nat, l: nat)
    requires Inv(st) && k < |st.records| && l < |st.records| && SameKey(st.records[k].ctx, st.records[l].ctx)
    ensures k == l
  {
  }

  /** Attempts that finished under one key, first runs and replays alike, had the same intent and the
      same arguments, and all return the same record: the stored result. */
  lemma FinishedAttemptsAgree(start: State, events: seq<Event>, a: Attempt, b: Attempt)
    requires Start(start) && a in Run(start, events).attempts && b in Run(start, events).attempts
    requires a.phase.Done? && b.phase.Done? && SameKey(a.ctx, b.ctx)
    ensures a.ctx.(approvalRef := b.ctx.approvalRef) == b.ctx && a.phase.record == b.phase.record
  {
    hide Run, Start, Inv;
    StartIsInv(start);
    RunKeepsInv(start, events);
    var st := Run(start, events);
    DoneMeansRecord(st, a);
    DoneMeansRecord(st, b);
    OneRecordPerKey(st, a.phase.record, b.phase.record);
  }

  lemma ControlKeepsResults(st: State, e: Event)
    requires !(e.EvBegin? || e.EvVerify? || e.EvLookup? || e.EvInsert? || e.EvHandle? || e.EvCommit? || e.EvCrash?)
    ensures Step(st, e).attempts == st.attempts && Step(st, e).records == st.records
  {
    hide Begin, Verify, Lookup, Insert, Handle, Commit, Crash, HasActiveStep, Registered, IsRead;
  }

  /** What an attempt returned does not change, nor does the record behind it. */
  ghost predicate KeepsResults(st: State, st': State) {
    && |st.attempts| <= |st'.attempts| && |st.records| <= |st'.records|
    && (forall i :: 0 <= i < |st.attempts| && st.attempts[i].phase.Done? ==> st'.attempts[i] == st.attempts[i])
    && (forall k :: 0 <= k < |st.records| ==> st'.records[k] == st.records[k])
  }

  lemma LookupKeepsResults(st: State, i: nat)
    ensures KeepsResults(st, Lookup(st, i)) && KeepsResults(st, Insert(st, i))
  {
    hide KeyHeld, SameIntent, SameKey, FindRecord;
  }

  lemma BeginKeepsResults(st: State, e: Event)
    requires e.EvBegin?
    ensures KeepsResults(st, Step(st, e))
  {
    hide Authorize, HasActiveStep;
  }

  lemma VerifyKeepsResults(st: State, i: nat)
    ensures KeepsResults(st, Verify(st, i))
  {
    hide ApprovalHolds, IsRead;
  }

  lemma HandleKeepsResults(st: State, i: nat, outcome: Outcome)
    ensures KeepsResults(st, Handle(st, i, outcome))
  {
    hide IsRead;
  }

  lemma CrashKeepsResults(st: State, i: nat)
    ensures KeepsResults(st, Crash(st, i))
  {
  }

  lemma CommitKeepsResults(st: State, i: nat)
    ensures KeepsResults(st, Commit(st, i))
  {
  }

  lemma AttemptKeepsResults(st: State, e: Event)
    requires e.EvBegin? || e.EvVerify? || e.EvLookup? || e.EvInsert? || e.EvHandle? || e.EvCommit? || e.EvCrash?
    ensures KeepsResults(st, Step(st, e))
  {
    hide KeepsResults, Begin, Verify, Lookup, Insert, Handle, Commit, Crash;
    if e.EvBegin? {
      BeginKeepsResults(st, e);
    } else {
      LookupKeepsResults(st, e.i);
      VerifyKeepsResults(st, e.i);
      HandleKeepsResults(st, e.i, if e.EvHandle? then e.outcome else Failed(""));
      CommitKeepsResults(st, e.i);
      CrashKeepsResults(st, e.i);
    }
  }

  /** Whatever happens next, a finished attempt keeps its result. */
  lemma {:induction false} ResultsAreFinal(st: State, events: seq<Event>)
    ensures KeepsResults(st, Run(st, events))
  {
    hide Step;
    if events != [] {
      var mid, e := Run(st, events[..|events| - 1]), events[|events| - 1];
      ResultsAreFinal(st, events[..|events| - 1]);
      if e.EvBegin? || e.EvVerify? || e.EvLookup? || e.EvInsert? || e.EvHandle? || e.EvCommit? || e.EvCrash? {
        AttemptKeepsResults(mid, e);
      } else {
        ControlKeepsResults(mid, e);
      }
    }
  }

  /** What becomes of an attempt whose key has the record at k: it may only differ in its approval. */
  function ReuseOf(st: State, i: nat, k: nat): Phase
    requires i < |st.attempts| && k < |st.records|
  {
    var ctx := st.attempts[i].ctx;
    if st.records[k].ctx.(approvalRef := ctx.approvalRef) == ctx then Done(k, true) else Rejected
  }

  lemma UsedKeyFound(st: State, ctx: Context, k: nat)
    requires Inv(st) && k < |st.records| && SameKey(st.records[k].ctx, ctx)
    ensures FindRecord(st.records, ctx) == k
  {
    var found := FindRecord(st.records, ctx);
    assert SameKey(st.records[found].ctx, st.records[k].ctx);
    OneRecordPerKey(st, found, k);
  }

  lemma UsedKeyAtInsert(st: State, i: nat, k: nat)
    requires Inv(st) && InPhase(st, i, Missed) && k < |st.records| && SameKey(st.records[k].ctx, st.attempts[i].ctx)
    ensures Insert(st, i) == SetPhase(st, i, ReuseOf(st, i, k))
  {
    UsedKeyFound(st, st.attempts[i].ctx, k);
    KeyNotHeld(st, i, k);
    hide Inv, FindRecord, KeyHeld, SameKey;
  }

  /** A verified attempt under a key that is already used: it replays the stored result if and only if
      actor, action, step, plan and arguments are those of the record, and is refused otherwise. */
  lemma UsedKeyReplaysIff(st: State, i: nat, k: nat)
    requires Inv(st) && InPhase(st, i, Verified) && k < |st.records| && st.attempts[i].ctx.key.Some?
    requires var r, ctx := st.records[k].ctx, st.attempts[i].ctx;
             (r.tenant, r.compilation, r.key) == (ctx.tenant, ctx.compilation, ctx.key)
    ensures var after := Insert(Lookup(st, i), i);
            i < |after.attempts| && after.records == st.records && after.effects == st.effects
            && after.attempts[i].phase == ReuseOf(st, i, k)
  {
    UsedKeyAtLookup(st, i, k);
    LookupKeepsInv(st, i);
    hide Inv, Lookup, Insert, SameKey, SameIntent, Replay;
    if Lookup(st, i) == SetPhase(st, i, Missed) {
      UsedKeyAtInsert(Lookup(st, i), i, k);
    } else {
      InsertWaits(Lookup(st, i), i);
    }
  }

  lemma UsedKeyAtLookup(st: State, i: nat, k: nat)
    requires Inv(st) && InPhase(st, i, Verified) && k < |st.records| && SameKey(st.records[k].ctx, st.attempts[i].ctx)
    ensures Lookup(st, i) == SetPhase(st, i, ReuseOf(st, i, k)) || Lookup(st, i) == SetPhase(st, i, Missed)
  {
    UsedKeyFound(st, st.attempts[i].ctx, k);
    hide Inv, FindRecord, SameKey, SameIntent;
  }

  lemma InsertWaits(st: State, i: nat)
    requires !InPhase(st, i, Missed)
    ensures Insert(st, i) == st
  {
  }

  /** Nobody holds a key that has a committed record. */
  lemma KeyNotHeld(st: State, i: nat, k: nat)
    requires Inv(st) && i < |st.attempts| && k < |st.records| && SameKey(st.records[k].ctx, st.attempts[i].ctx)
    ensures !KeyHeld(st, i)
  {
    forall j | 0 <= j < |st.attempts| && Holds(st.attempts[j])
      ensures !SameKey(st.attempts[j].ctx, st.attempts[i].ctx)
    {
      assert AttemptInv(st, st.attempts[j]);
      NoRecord(st.records, st.attempts[j].ctx);
      assert st.records[k] in st.records;
    }
  }

  /** The plan is only looked at when an execution is authorized: a handler that has run commits its
      effect even if an activation has superseded its plan since. */
  lemma SupersededPlanStillCommits(st: State, i: nat, k: nat)
    requires i < |st.attempts| && st.attempts[i].phase.Ran? && st.attempts[i].phase.outcome.Finished?
    requires HasActiveStep(st, st.attempts[i].ctx.tenant, st.attempts[i].ctx.compilation, st.attempts[i].ctx.step)
    requires MayCommitPlan(st, k) && st.attempts[i].ctx.compilation in st.activations[k].others
    requires st.attempts[i].ctx.compilation != st.activations[k].target
    ensures var after := Commit(CommitPlan(st, k), i);
            after.effects == st.effects + [st.attempts[i].ctx]
            && after.compilations[st.attempts[i].ctx.compilation].status == Superseded
  {
  }

  // ---------------------------------------------------------------- one execution without interference

  /** The steps of `execute_step`, one after the other. */
  function RunAlone(st: State, tenant: int, actor: string, compilation: string, step: string,
                    approvalRef: Option<string>,
                    key: Option<string>, args: string, approved: bool, outcome: Outcome): State {
    var i := |st.attempts|;
    var verified := Verify(Begin(st, tenant, actor, compilation, step, approvalRef, key, args, approved), i);
    Commit(Handle(Insert(Lookup(verified, i), i), i, outcome), i)
  }
}
