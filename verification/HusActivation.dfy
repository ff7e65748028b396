/** When a tenant has at most one active plan: activations that overlap. */
module HusActivation {
  import opened HusRegistry
  import opened HusRuntime
  import opened Outcomes

  predicate OneActive(compilations: map<string, Compilation>) {
    forall a, b :: a in compilations && b in compilations && a != b && compilations[a].status == Active
                   && compilations[b].status == Active ==>
      compilations[a].tenant != compilations[b].tenant
  }

  /** An activation of the tenant that was committed since the activation's read, of a plan it did not read. */
  predicate Overtakes(activated: seq<(int, string)>, a: Activation, j: nat) {
    a.since <= j < |activated| && activated[j].0 == a.tenant && activated[j].1 !in a.others
  }

  predicate Overtaken(activated: seq<(int, string)>, a: Activation) {
    exists j: nat :: j < |activated| && Overtakes(activated, a, j)
  }

  /** The event commits an activation that another one has overtaken. */
  predicate LateCommit(st: State, e: Event) {
    e.EvCommitPlan? && MayCommitPlan(st, e.k) && Overtaken(st.activated, st.activations[e.k])
  }

  // ---------------------------------------------------------------- the invariant

  predicate InTenant(st: State, tenant: int, c: string) { c in st.compilations && st.compilations[c].tenant == tenant }

  /** The latest committed activation of its tenant. */
  predicate IsLast(activated: seq<(int, string)>, j: nat)
    requires j < |activated|
  {
    forall i :: j < i < |activated| ==> activated[i].0 != activated[j].0
  }

  /** What an activation in flight has locked and read. */
  ghost predicate FlightInv(st: State, a: Activation) {
    && Activatable(st, a.tenant, a.target)
    && a.since <= |st.activated|
    && (forall c :: c in a.others ==>
        c != a.target && InTenant(st, a.tenant, c) && st.compilations[c].status != Compiled)
    && (forall j :: a.since <= j < |st.activated| ==> st.activated[j].1 != a.target)
    && (forall c :: InTenant(st, a.tenant, c) && st.compilations[c].status == Active && c != a.target
                    && c !in a.others ==>
          exists j :: a.since <= j < |st.activated| && st.activated[j] == (a.tenant, c))
  }

  ghost predicate LogInv(st: State) {
    && (forall j :: 0 <= j < |st.activated| ==> InTenant(st, st.activated[j].0, st.activated[j].1))
    && (forall j :: 0 <= j < |st.activated| && IsLast(st.activated, j) ==>
        st.compilations[st.activated[j].1].status == Active)
  }

  ghost predicate FlightsInv(st: State) {
    && (forall a :: a in st.activations && a.open ==> FlightInv(st, a))
    && (forall k, l :: 0 <= k < l < |st.activations| && st.activations[k].open && st.activations[l].open ==>
          st.activations[k].target != st.activations[l].target)
  }

  ghost predicate PlansInv(st: State) { LogInv(st) && FlightsInv(st) }

  /** As long as there was one active plan: what an overtaken activation has read is not active any more. */
  ghost predicate LateInv(st: State) {
    forall a :: a in st.activations && a.open && Overtaken(st.activated, a) ==>
      forall c :: c in a.others && c in st.compilations ==> st.compilations[c].status != Active
  }

  lemma StartIsPlansInv(st: State)
    requires Start(st)
    ensures PlansInv(st) && LateInv(st)
  {
  }

  /** Events that have nothing to do with plans. */
  predicate PlanEvent(e: Event) { e.EvStore? || e.EvReadPlans? || e.EvCommitPlan? || e.EvAbandonPlan? }

  predicate AttemptEvent(e: Event) {
    e.EvBegin? || e.EvVerify? || e.EvLookup? || e.EvInsert? || e.EvHandle? || e.EvCommit? || e.EvCrash?
  }

  predicate KeepsPlans(st: State, after: State) {
    after.compilations == st.compilations && after.activations == st.activations && after.activated == st.activated
  }

  lemma AttemptEvents(st: State, e: Event)
    requires AttemptEvent(e)
    ensures KeepsPlans(st, Step(st, e))
  {
    hide Store, ReadPlans, CommitPlan, AbandonPlan, Propose, Approve, RegisterRead, RegisterMutation;
    hide Begin, Verify, Lookup, Insert, Handle, Commit, Crash, KeepsPlans;
    if e.EvBegin? {
      BeginKeepsPlans(st, e.tenant, e.actor, e.compilation, e.step, e.approvalRef, e.key, e.args, e.approved);
    } else {
      LookupKeepsPlans(st, e.i);
      PhasesKeepPlans(st, e.i, if e.EvHandle? then e.outcome else Failed(""));
    }
  }

  lemma BeginKeepsPlans(st: State, tenant: int, actor: string, compilation: string, step: string,
                        approvalRef: Option<string>,
                        key: Option<string>, args: string, approved: bool)
    ensures KeepsPlans(st, Begin(st, tenant, actor, compilation, step, approvalRef, key, args, approved))
  {
    hide Authorize;
  }

  lemma PhasesKeepPlans(st: State, i: nat, outcome: Outcome)
    ensures KeepsPlans(st, Verify(st, i)) && KeepsPlans(st, Handle(st, i, outcome))
    ensures KeepsPlans(st, Commit(st, i)) && KeepsPlans(st, Crash(st, i))
  {
    hide ApprovalHolds, IsRead;
  }

  lemma LookupKeepsPlans(st: State, i: nat)
    ensures KeepsPlans(st, Lookup(st, i)) && KeepsPlans(st, Insert(st, i))
  {
    hide KeyHeld, SameIntent, SameKey, FindRecord;
  }

  lemma ControlEvents(st: State, e: Event)
    requires !AttemptEvent(e) && !PlanEvent(e)
    ensures KeepsPlans(st, Step(st, e))
  {
    hide Store, ReadPlans, CommitPlan, AbandonPlan, Begin, Verify, Lookup, Insert, Handle, Commit, Crash,
         HasActiveStep, Registered, IsRead;
  }

  lemma StoreKeepsPlans(st: State, id: string, tenant: int, planHash: Digest, steps: map<string, PlanStep>)
    requires PlansInv(st)
    ensures PlansInv(Store(st, id, tenant, planHash, steps))
    ensures LateInv(st) ==> LateInv(Store(st, id, tenant, planHash, steps))
    ensures OneActive(Store(st, id, tenant, planHash, steps).compilations) <==> OneActive(st.compilations)
  {
    var after := Store(st, id, tenant, planHash, steps);
    if after != st {
      forall a | a in after.activations && a.open ensures FlightInv(after, a) { assert FlightInv(st, a); }
      forall a | a in after.activations && a.open && Overtaken(after.activated, a) && LateInv(st)
        ensures forall c :: c in a.others && c in after.compilations ==> after.compilations[c].status != Active
      {
        assert FlightInv(st, a);
      }
      assert OneActive(st.compilations) ==> OneActive(after.compilations);
      if OneActive(after.compilations) {
        assert forall c :: c in st.compilations ==> after.compilations[c] == st.compilations[c];
      }
    }
  }

  lemma ReadKeepsPlans(st: State, tenant: int, id: string)
    requires PlansInv(st)
    ensures PlansInv(ReadPlans(st, tenant, id))
    ensures LateInv(st) ==> LateInv(ReadPlans(st, tenant, id))
  {
    var after := ReadPlans(st, tenant, id);
    if after != st {
      var a := after.activations[|st.activations|];
      assert FlightInv(after, a);
      forall b | b in after.activations && b.open ensures FlightInv(after, b) {
        if b in st.activations { assert FlightInv(st, b); }
      }
      assert !Overtaken(after.activated, a);
    }
  }

  lemma AbandonKeepsPlans(st: State, k: nat)
    requires PlansInv(st)
    ensures PlansInv(AbandonPlan(st, k))
    ensures LateInv(st) ==> LateInv(AbandonPlan(st, k))
  {
    var after := AbandonPlan(st, k);
    if k < |st.activations| {
      forall b | b in after.activations && b.open ensures b in st.activations && FlightInv(after, b) {
        assert FlightInv(st, b);
      }
    }
  }

  /** Committing an activation, seen by another one in flight. */
  lemma CommitKeepsFlight(st: State, k: nat, l: nat)
    requires PlansInv(st) && MayCommitPlan(st, k) && l < |st.activations| && l != k && st.activations[l].open
    ensures FlightInv(CommitPlan(st, k), st.activations[l])
  {
    var after, a, b := CommitPlan(st, k), st.activations[k], st.activations[l];
    assert FlightInv(st, a) && FlightInv(st, b) && a.target != b.target;
    assert b.target !in a.others by { if b.target in a.others { assert PlanLocked(st, b.target); } }
    assert after.activated[|st.activated|] == (a.tenant, a.target);
    assert forall j :: 0 <= j < |st.activated| ==> after.activated[j] == st.activated[j];
    forall c | InTenant(after, b.tenant, c) && after.compilations[c].status == Active && c != b.target && c !in b.others
      ensures exists j :: b.since <= j < |after.activated| && after.activated[j] == (b.tenant, c)
    {
      if c == a.target {
        assert after.activated[|st.activated|] == (b.tenant, c);
      } else {
        assert InTenant(st, b.tenant, c) && st.compilations[c].status == Active;
        var j :| b.since <= j < |st.activated| && st.activated[j] == (b.tenant, c);
        assert after.activated[j] == (b.tenant, c);
      }
    }
  }

  lemma CommitKeepsLog(st: State, k: nat)
    requires PlansInv(st) && MayCommitPlan(st, k)
    ensures LogInv(CommitPlan(st, k))
  {
    var after, a := CommitPlan(st, k), st.activations[k];
    assert FlightInv(st, a);
    forall j | 0 <= j < |after.activated| && IsLast(after.activated, j)
      ensures after.compilations[after.activated[j].1].status == Active
    {
      if j < |st.activated| {
        assert after.activated[|st.activated|].0 != after.activated[j].0;
        assert IsLast(st.activated, j) by {
          forall i | j < i < |st.activated| ensures st.activated[i].0 != st.activated[j].0 {
            assert after.activated[i].0 != after.activated[j].0;
          }
        }
      }
    }
  }

  lemma CommitKeepsPlans(st: State, k: nat)
    requires PlansInv(st) && MayCommitPlan(st, k)
    ensures PlansInv(CommitPlan(st, k))
  {
    CommitKeepsLog(st, k);
    var after := CommitPlan(st, k);
    forall b | b in after.activations && b.open ensures FlightInv(after, b) {
      var l :| 0 <= l < |after.activations| && after.activations[l] == b;
      CommitKeepsFlight(st, k, l);
    }
  }

  // ---------------------------------------------------------------- one commit

  /** A commit that nobody has overtaken leaves one active plan. */
  lemma TimelyCommit(st: State, k: nat)
    requires PlansInv(st) && MayCommitPlan(st, k) && OneActive(st.compilations)
    requires !Overtaken(st.activated, st.activations[k])
    ensures OneActive(CommitPlan(st, k).compilations)
  {
    var after, a := CommitPlan(st, k), st.activations[k];
    assert FlightInv(st, a);
    forall c | InTenant(after, a.tenant, c) && after.compilations[c].status == Active ensures c == a.target {
      if c != a.target {
        assert InTenant(st, a.tenant, c) && c !in a.others;
        var j :| a.since <= j < |st.activated| && st.activated[j] == (a.tenant, c);
        assert Overtakes(st.activated, a, j);
      }
    }
    forall c, d | c in after.compilations && d in after.compilations && c != d
                  && after.compilations[c].status == Active && after.compilations[d].status == Active
      ensures after.compilations[c].tenant != after.compilations[d].tenant
    {
      assert after.compilations[a.target].tenant == a.tenant;
      if c != a.target && d != a.target {
        assert st.compilations[c].status == Active && st.compilations[d].status == Active;
      }
    }
  }

  /** The latest committed activation of an entry's tenant. */
  lemma LastOf(activated: seq<(int, string)>, j: nat) returns (l: nat)
    requires j < |activated|
    ensures j <= l < |activated| && activated[l].0 == activated[j].0 && IsLast(activated, l)
    decreases |activated| - j
  {
    if IsLast(activated, j) {
      l := j;
    } else {
      var i :| j < i < |activated| && activated[i].0 == activated[j].0;
      l := LastOf(activated, i);
    }
  }

  /** A commit that somebody has overtaken leaves two active plans. */
  lemma LateCommitBreaks(st: State, k: nat)
    requires PlansInv(st) && LateInv(st) && MayCommitPlan(st, k) && Overtaken(st.activated, st.activations[k])
    ensures !OneActive(CommitPlan(st, k).compilations)
  {
    var after, a := CommitPlan(st, k), st.activations[k];
    assert FlightInv(st, a);
    var j: nat :| j < |st.activated| && Overtakes(st.activated, a, j);
    var l := LastOf(st.activated, j);
    var other := st.activated[l].1;
    assert st.compilations[other].status == Active && InTenant(st, a.tenant, other) && other != a.target;
    assert other !in a.others;
    assert after.compilations[other].status == Active && after.compilations[a.target].status == Active;
    assert after.compilations[other].tenant == after.compilations[a.target].tenant;
  }

  /** If one plan is active after a commit, whoever it overtakes has read nothing that is still active. */
  lemma CommitKeepsLate(st: State, k: nat)
    requires PlansInv(st) && LateInv(st) && MayCommitPlan(st, k) && OneActive(CommitPlan(st, k).compilations)
    ensures LateInv(CommitPlan(st, k))
  {
    var after, a := CommitPlan(st, k), st.activations[k];
    assert FlightInv(st, a);
    forall b, c | b in after.activations && b.open && Overtaken(after.activated, b) && c in b.others
                  && c in after.compilations
      ensures after.compilations[c].status != Active
    {
      var l :| 0 <= l < |after.activations| && after.activations[l] == b;
      assert l != k && b == st.activations[l] && FlightInv(st, b) && a.target != b.target;
      var j: nat :| j < |after.activated| && Overtakes(after.activated, b, j);
      if j < |st.activated| {
        assert Overtakes(st.activated, b, j);
        assert st.compilations[c].status == Superseded;
        assert c != a.target;
      } else {
        assert a.tenant == b.tenant && a.target !in b.others;
        assert after.compilations[a.target].status == Active
               && after.compilations[a.target].tenant == after.compilations[c].tenant;
      }
    }
  }

  lemma CommitStep(st: State, k: nat)
    requires PlansInv(st) && LateInv(st) && OneActive(st.compilations) && MayCommitPlan(st, k)
    ensures OneActive(CommitPlan(st, k).compilations) <==> !Overtaken(st.activated, st.activations[k])
    ensures OneActive(CommitPlan(st, k).compilations) ==> LateInv(CommitPlan(st, k))
  {
    if Overtaken(st.activated, st.activations[k]) { LateCommitBreaks(st, k); } else { TimelyCommit(st, k); }
    hide *;
    if OneActive(CommitPlan(st, k).compilations) { CommitKeepsLate(st, k); }
  }

  // ---------------------------------------------------------------- every run

  ghost predicate AlwaysOneActive(start: State, events: seq<Event>) {
    forall n :: 0 <= n <= |events| ==> OneActive(Run(start, events[..n]).compilations)
  }

  ghost predicate NoLateCommit(start: State, events: seq<Event>) {
    forall n :: 0 <= n < |events| ==> !LateCommit(Run(start, events[..n]), events[n])
  }

  lemma StepKeepsPlans(st: State, e: Event)
    requires PlansInv(st)
    ensures PlansInv(Step(st, e))
    ensures LateInv(st) && OneActive(st.compilations) ==>
              && (OneActive(Step(st, e).compilations) <==> !LateCommit(st, e))
              && (OneActive(Step(st, e).compilations) ==> LateInv(Step(st, e)))
  {
    hide PlansInv, LateInv, OneActive, Store, ReadPlans, CommitPlan, AbandonPlan, MayCommitPlan, Overtaken;
    match e
    case EvStore(id, tenant, planHash, steps) => StoreKeepsPlans(st, id, tenant, planHash, steps);
    case EvReadPlans(tenant, id) =>
      ReadKeepsPlans(st, tenant, id);
      PlansUntouched(st, e);
    case EvAbandonPlan(k) =>
      AbandonKeepsPlans(st, k);
      PlansUntouched(st, e);
    case EvCommitPlan(k) =>
      if MayCommitPlan(st, k) {
        CommitKeepsPlans(st, k);
        if LateInv(st) && OneActive(st.compilations) { CommitStep(st, k); }
      } else {
        CommitWaits(st, k);
      }
    case _ =>
      if AttemptEvent(e) { AttemptEvents(st, e); } else { ControlEvents(st, e); }
      SamePlans(st, Step(st, e));
  }

  lemma PlansUntouched(st: State, e: Event)
    requires e.EvReadPlans? || e.EvAbandonPlan?
    ensures Step(st, e).compilations == st.compilations
  {
  }

  lemma CommitWaits(st: State, k: nat)
    requires !MayCommitPlan(st, k)
    ensures CommitPlan(st, k) == st
  {
  }

  lemma SamePlans(st: State, after: State)
    requires KeepsPlans(st, after)
    ensures PlansInv(after) == PlansInv(st) && LateInv(after) == LateInv(st)
  {
    assert forall a :: FlightInv(after, a) == FlightInv(st, a);
  }

  /** Main result, over every interleaving: from a state with one active plan per tenant there is never
      more than one, if and only if no activation commits after it was overtaken: after another
      activation of the tenant, of a plan that it had not read, was committed since its read. */
  lemma OneActivePlanIff(start: State, events: seq<Event>)
    requires Start(start) && OneActive(start.compilations)
    ensures AlwaysOneActive(start, events) <==> NoLateCommit(start, events)
  {
    PlansAfter(start, events);
  }

  lemma {:induction false} PlansAfter(start: State, events: seq<Event>)
    requires Start(start) && OneActive(start.compilations)
    ensures PlansInv(Run(start, events))
    ensures AlwaysOneActive(start, events) <==> NoLateCommit(start, events)
    ensures AlwaysOneActive(start, events) ==> LateInv(Run(start, events)) && OneActive(Run(start, events).compilations)
  {
    if events == [] {
      StartIsPlansInv(start);
      assert Run(start, []) == start && events[..0] == [];
      hide PlansInv, LateInv, OneActive;
    } else {
      var n := |events| - 1;
      PlansAfter(start, events[..n]);
      OneMoreEvent(start, events);
      hide *;
      StepKeepsPlans(Run(start, events[..n]), events[n]);
    }
  }

  lemma OneMoreEvent(start: State, events: seq<Event>)
    requires events != []
    ensures var n := |events| - 1;
            && Run(start, events) == Step(Run(start, events[..n]), events[n])
            && (AlwaysOneActive(start, events) <==>
                AlwaysOneActive(start, events[..n]) && OneActive(Run(start, events).compilations))
            && (NoLateCommit(start, events) <==>
                NoLateCommit(start, events[..n]) && !LateCommit(Run(start, events[..n]), events[n]))
  {
    var n := |events| - 1;
    assert Run(start, events) == Step(Run(start, events[..n]), events[n]);
    hide *;
    PrefixActive(start, events, n);
    PrefixCommits(start, events, n);
  }

  lemma PrefixActive(start: State, events: seq<Event>, n: nat)
    requires n + 1 == |events|
    ensures AlwaysOneActive(start, events) <==>
              AlwaysOneActive(start, events[..n]) && OneActive(Run(start, events).compilations)
  {
    hide OneActive, Run;
    assert events[..|events|] == events;
    forall m | 0 <= m <= n ensures events[..n][..m] == events[..m] {
    }
    if AlwaysOneActive(start, events[..n]) && OneActive(Run(start, events).compilations) {
      forall m | 0 <= m <= |events| ensures OneActive(Run(start, events[..m]).compilations) {
        if m <= n { assert OneActive(Run(start, events[..n][..m]).compilations); }
      }
    }
  }

  lemma PrefixCommits(start: State, events: seq<Event>, n: nat)
    requires n + 1 == |events|
    ensures NoLateCommit(start, events) <==>
              NoLateCommit(start, events[..n]) && !LateCommit(Run(start, events[..n]), events[n])
  {
    hide LateCommit, Run;
    forall m | 0 <= m < n ensures events[..n][..m] == events[..m] && events[..n][m] == events[m] {
    }
    if NoLateCommit(start, events[..n]) && !LateCommit(Run(start, events[..n]), events[n]) {
      forall m | 0 <= m < |events| ensures !LateCommit(Run(start, events[..m]), events[m]) {
        if m < n { assert !LateCommit(Run(start, events[..n][..m]), events[..n][m]); }
      }
    }
  }

  // ---------------------------------------------------------------- overlapping or not

  predicate BothActive(compilations: map<string, Compilation>, tenant: int, a: string, b: string) {
    && a in compilations && compilations[a].tenant == tenant && compilations[a].status == Active
    && b in compilations && compilations[b].tenant == tenant && compilations[b].status == Active
  }

  /** Two plans of a tenant are compiled. Both activations read before either of them commits: both plans
      end up active, whatever was active before. */
  lemma OverlapLeavesTwo(st: State, tenant: int, a: string, b: string)
    requires a != b && Activatable(st, tenant, a) && Activatable(st, tenant, b)
    requires st.compilations[a].status == st.compilations[b].status == Compiled
    requires forall k :: 0 <= k < |st.activations| ==> !st.activations[k].open
    ensures var n := |st.activations|;
            BothActive(Run(st,
                           [EvReadPlans(tenant, a), EvReadPlans(tenant, b), EvCommitPlan(n),
                            EvCommitPlan(n + 1)]).compilations, tenant, a, b)
  {
    var n := |st.activations|;
    var x := Activation(tenant, a, ActiveOthers(st, tenant, a), |st.activated|, true);
    var y := Activation(tenant, b, ActiveOthers(st, tenant, b), |st.activated|, true);
    var two := st.(activations := st.activations + [x, y]);
    BothRead(st, tenant, a, b);
    CompiledUnread(st, tenant, a, b);
    CompiledUnread(st, tenant, b, a);
    FourEvents(st, EvReadPlans(tenant, a), EvReadPlans(tenant, b), EvCommitPlan(n), EvCommitPlan(n + 1));
    assert InTenant(st, tenant, a) && InTenant(st, tenant, b);
    hide *;
    BothCommit(two, n, x, y);
  }

  lemma BothCommit(st: State, n: nat, x: Activation, y: Activation)
    requires |st.activations| == n + 2 && st.activations[n] == x && st.activations[n + 1] == y
    requires forall k :: 0 <= k < n ==> !st.activations[k].open
    requires x.open && y.open && x.tenant == y.tenant && InTenant(st, x.tenant, x.target)
    requires InTenant(st, x.tenant, y.target)
    requires x.target !in x.others + y.others && y.target !in x.others + y.others && x.target != y.target
    ensures BothActive(CommitPlan(CommitPlan(st, n), n + 1).compilations, x.tenant, x.target, y.target)
  {
    NobodyElse(st, n, x, y);
    var next := CommitPlan(st, n);
    hide MayCommitPlan;
    assert next.activations[n] == x.(open := false) && next.activations[n + 1] == y;
    NobodyElse(next, n, x.(open := false), y);
  }

  /** Only x and y may be in flight, and neither of them has read the other's plan. */
  lemma NobodyElse(st: State, n: nat, x: Activation, y: Activation)
    requires |st.activations| == n + 2 && st.activations[n] == x && st.activations[n + 1] == y
    requires forall k :: 0 <= k < n ==> !st.activations[k].open
    requires x.target !in x.others + y.others && y.target !in x.others + y.others
    ensures (x.open ==> MayCommitPlan(st, n)) && (y.open ==> MayCommitPlan(st, n + 1))
  {
  }

  lemma CompiledUnread(st: State, tenant: int, a: string, b: string)
    requires Activatable(st, tenant, a) && st.compilations[a].status == Compiled
    ensures a !in ActiveOthers(st, tenant, a) + ActiveOthers(st, tenant, b)
  {
  }

  lemma BothRead(st: State, tenant: int, a: string, b: string)
    requires a != b && Activatable(st, tenant, a) && Activatable(st, tenant, b)
    requires forall k :: 0 <= k < |st.activations| ==> !st.activations[k].open
    ensures ReadPlans(ReadPlans(st, tenant, a), tenant, b) ==
      st.(activations := st.activations + [Activation(tenant, a, ActiveOthers(st, tenant, a), |st.activated|, true),
                                           Activation(tenant, b, ActiveOthers(st, tenant, b), |st.activated|, true)])
  {
    hide ActiveOthers;
    var one := ReadPlans(st, tenant, a);
    var x := Activation(tenant, a, ActiveOthers(st, tenant, a), |st.activated|, true);
    assert one == st.(activations := st.activations + [x]);
    SameRead(st, one, tenant, b);
    assert !PlanLocked(one, b);
    assert st.activations + [x] + [Activation(tenant, b, ActiveOthers(st, tenant, b), |st.activated|, true)]
        == st.activations + [x, Activation(tenant, b, ActiveOthers(st, tenant, b), |st.activated|, true)];
  }

  lemma SameRead(st: State, after: State, tenant: int, id: string)
    requires after.compilations == st.compilations
    ensures ActiveOthers(after, tenant, id) == ActiveOthers(st, tenant, id)
    ensures Activatable(after, tenant, id) == Activatable(st, tenant, id)
  {
  }

  lemma FourEvents(st: State, a: Event, b: Event, c: Event, d: Event)
    ensures Run(st, [a, b, c, d]) == Step(Step(Step(Step(st, a), b), c), d)
  {
    hide Step;
    assert [a, b, c, d][..3] == [a, b, c] && [a, b, c][..2] == [a, b] && [a, b][..1] == [a] && [a][..0] == [];
    assert Run(st, [a]) == Step(st, a);
    assert Run(st, [a, b]) == Step(Step(st, a), b);
    assert Run(st, [a, b, c]) == Step(Step(Step(st, a), b), c);
  }

  /** No activation of the tenant is in flight. */
  predicate Quiet(st: State, tenant: int) { forall a :: a in st.activations && a.open ==> a.tenant != tenant }

  /** Activations of a tenant never overlap: each starts when none is in flight. */
  ghost predicate OneByOne(start: State, events: seq<Event>) {
    forall n :: 0 <= n < |events| && events[n].EvReadPlans? ==> Quiet(Run(start, events[..n]), events[n].tenant)
  }

  ghost predicate AloneInv(st: State) {
    && (forall k, l :: 0 <= k < l < |st.activations| && st.activations[k].open && st.activations[l].open ==>
          st.activations[k].tenant != st.activations[l].tenant)
    && (forall a, j :: a in st.activations && a.open && a.since <= j < |st.activated| ==> st.activated[j].0 != a.tenant)
  }

  lemma StepKeepsAlone(st: State, e: Event)
    requires AloneInv(st) && (e.EvReadPlans? ==> Quiet(st, e.tenant))
    ensures AloneInv(Step(st, e))
  {
    if PlanEvent(e) {
      hide Activatable, ActiveOthers, PlanLocked, MayCommitPlan, Switched;
      var after := Step(st, e);
      if e.EvCommitPlan? && after != st { CommitsAlone(st, e.k); }
    } else {
      if AttemptEvent(e) { AttemptEvents(st, e); } else { ControlEvents(st, e); }
      hide Step;
    }
  }

  lemma CommitsAlone(st: State, k: nat)
    requires AloneInv(st) && MayCommitPlan(st, k)
    ensures AloneInv(CommitPlan(st, k))
  {
    var after := CommitPlan(st, k);
    assert k < |st.activations| && st.activations[k].open;
    hide Switched, MayCommitPlan;
    forall a, j | a in after.activations && a.open && a.since <= j < |after.activated|
      ensures after.activated[j].0 != a.tenant
    {
      var l :| 0 <= l < |after.activations| && after.activations[l] == a;
      assert l != k && st.activations[l] == a;
    }
  }

  /** In particular, activations that do not overlap keep one active plan. */
  lemma OneByOneKeepsOne(start: State, events: seq<Event>)
    requires Start(start) && OneActive(start.compilations) && OneByOne(start, events)
    ensures AlwaysOneActive(start, events)
  {
    forall n | 0 <= n < |events| ensures !LateCommit(Run(start, events[..n]), events[n]) {
      AloneAfter(start, events, n);
    }
    OneActivePlanIff(start, events);
  }

  lemma {:induction false} AloneAfter(start: State, events: seq<Event>, n: nat)
    requires Start(start) && OneByOne(start, events) && n <= |events|
    ensures AloneInv(Run(start, events[..n]))
  {
    if n == 0 {
      assert events[..0] == [];
    } else {
      AloneAfter(start, events, n - 1);
      assert events[..n][..n - 1] == events[..n - 1];
      assert Run(start, events[..n]) == Step(Run(start, events[..n - 1]), events[n - 1]);
      hide AloneInv, Step, Run;
      StepKeepsAlone(Run(start, events[..n - 1]), events[n - 1]);
    }
  }

  /** Both halves without interference are one atomic activation. */
  lemma ActivationAlone(st: State, tenant: int, id: string)
    requires !PlanLocked(st, id) && forall c :: c in ActiveOthers(st, tenant, id) ==> !PlanLocked(st, c)
    ensures var after := CommitPlan(ReadPlans(st, tenant, id), |st.activations|);
            && after.compilations == Activate(st, tenant, id).compilations
            && (Activatable(st, tenant, id) ==> after.activated == st.activated + [(tenant, id)])
            && (!Activatable(st, tenant, id) ==> after == st)
  {
    if Activatable(st, tenant, id) {
      var mid := ReadPlans(st, tenant, id);
      assert forall c :: c in mid.activations[|st.activations|].others ==> c != id;
      assert MayCommitPlan(mid, |st.activations|);
    }
  }
}
