/** The workflow engine: instances of a definition, driven by events. */
module Workflow {
  import opened Outcomes

  /** A step: the events it accepts, whether it ends the workflow, and the key of its task. */
  datatype StepSpec = StepSpec(on: map<string, string>, terminal: bool, taskKey: Option<string>)

  /** `start` names the first step; the name "start" itself counts as defined, but is no step. */
  datatype Definition = Definition(start: string, steps: map<string, StepSpec>)

  datatype Status = Running | Completed | Cancelled

  datatype Transition = Transition(id: string, from: string, to: string, event: string)

  datatype Task = Task(step: string, key: string)

  datatype Instance = Instance(definition: Definition, step: string, status: Status, log: seq<Transition>,
                               tasks: seq<Task>)

  /** The instances of one tenant; event ids are shared by all of them. */
  datatype State = State(instances: seq<Instance>, used: set<string>)

  datatype Error = StartUndefined | NoEvent | NotFound | NotActive | InvalidStep | NotAccepted | TargetUndefined
    | AlreadyTerminal

  predicate Defined(d: Definition, step: string) { step in d.steps || step == "start" }

  function TaskKey(d: Definition, step: string): string {
    if step in d.steps && d.steps[step].taskKey.Some? then d.steps[step].taskKey.value else step
  }

  /** `_ensure_task`. */
  function EnsureTask(i: Instance, step: string): Instance {
    var key := TaskKey(i.definition, step);
    if exists t :: t in i.tasks && t.key == key then i else i.(tasks := i.tasks + [Task(step, key)])
  }

  function Begin(st: State, d: Definition): Result<State, Error> {
    if !Defined(d, d.start) then Err(StartUndefined)
    else Ok(st.(instances := st.instances + [EnsureTask(Instance(d, d.start, Running, [], []), d.start)]))
  }

  /** The instance after an event that its step accepts. */
  function Follow(i: Instance, id: string, event: string, target: string): Instance {
    var moved := i.(step := target, log := i.log + [Transition(id, i.step, target, event)],
                    status := if target in i.definition.steps && i.definition.steps[target].terminal then Completed
                        else Running);
    EnsureTask(moved, target)
  }

  /** `apply_event`. A target called "start" is defined but breaks the step: nothing is committed. */
  function Apply(st: State, k: nat, id: string, event: string): Result<State, Error> {
    if id == "" || event == "" then Err(NoEvent)
    else if id in st.used then if k < |st.instances| then Ok(st) else Err(NotFound)
    else if k >= |st.instances| then Err(NotFound)
    else
      var i := st.instances[k];
      if i.status != Running then Err(NotActive)
      else if i.step !in i.definition.steps then Err(InvalidStep)
      else if event !in i.definition.steps[i.step].on then Err(NotAccepted)
      else
        var target := i.definition.steps[i.step].on[event];
        if !Defined(i.definition, target) then Err(TargetUndefined)
        else if target !in i.definition.steps then Err(InvalidStep)
        else Ok(State(st.instances[k := Follow(i, id, event, target)], st.used + {id}))
  }

  function CancelInstance(st: State, k: nat): Result<State, Error> {
    if k >= |st.instances| then Err(NotFound)
    else if st.instances[k].status != Running then Err(AlreadyTerminal)
    else Ok(st.(instances := st.instances[k := st.instances[k].(status := Cancelled)]))
  }

  datatype Op = OpBegin(d: Definition) | OpApply(k: nat, id: string, event: string) | OpCancel(k: nat)

  function Perform(st: State, op: Op): Result<State, Error> {
    match op
    case OpBegin(d) => Begin(st, d)
    case OpApply(k, id, event) => Apply(st, k, id, event)
    case OpCancel(k) => CancelInstance(st, k)
  }

  function Step(st: State, op: Op): State {
    match Perform(st, op)
    case Ok(after) => after
    case Err(_) => st
  }

  function Run(st: State, ops: seq<Op>): State {
    if ops == [] then st else Step(Run(st, ops[..|ops| - 1]), ops[|ops| - 1])
  }

  const EMPTY := State([], {})

  // ---------------------------------------------------------------- replay

  /** The step that a log leads to, following the definition; none when it does not fit. */
  function Replay(d: Definition, log: seq<Transition>): Option<string> {
    if log == [] then Some(d.start)
    else
      var t := log[|log| - 1];
      var before := Replay(d, log[..|log| - 1]);
      if before == Some(t.from) && t.from in d.steps && t.event in d.steps[t.from].on
         && d.steps[t.from].on[t.event] == t.to then Some(t.to)
      else None
  }

  predicate EndsAt(d: Definition, step: string) { step in d.steps && d.steps[step].terminal }

  ghost predicate InstanceInv(i: Instance, used: set<string>) {
    && Replay(i.definition, i.log) == Some(i.step)
    && Defined(i.definition, i.step)
    && (i.log != [] ==> (i.status == Completed <==> EndsAt(i.definition, i.step)) || i.status == Cancelled)
    && (i.log == [] ==> i.status != Completed)
    && (forall t :: t in i.log ==> t.id in used)
    && (forall a, b :: 0 <= a < b < |i.log| ==> i.log[a].id != i.log[b].id)
    && (forall a, b :: 0 <= a < b < |i.tasks| ==> i.tasks[a].key != i.tasks[b].key)
    && (exists t :: t in i.tasks && t.key == TaskKey(i.definition, i.step))
  }

  /** No event id occurs in two logs. */
  ghost predicate Apart(i: Instance, j: Instance) {
    forall s, t :: s in i.log && t in j.log ==> s.id != t.id
  }

  ghost predicate Inv(st: State) {
    && (forall i :: i in st.instances ==> InstanceInv(i, st.used))
    && (forall a, b :: 0 <= a < b < |st.instances| ==> Apart(st.instances[a], st.instances[b]))
  }

  lemma TaskEnsured(i: Instance, step: string)
    requires forall a, b :: 0 <= a < b < |i.tasks| ==> i.tasks[a].key != i.tasks[b].key
    ensures var after := EnsureTask(i, step);
            && after == i.(tasks := after.tasks)
            && (forall a, b :: 0 <= a < b < |after.tasks| ==> after.tasks[a].key != after.tasks[b].key)
            && (exists t :: t in after.tasks && t.key == TaskKey(i.definition, step))
  {
    var key, after := TaskKey(i.definition, step), EnsureTask(i, step);
    hide TaskKey;
    if after != i {
      assert after.tasks[|i.tasks|] == Task(step, key);
      assert forall a :: 0 <= a < |i.tasks| ==> i.tasks[a] in i.tasks;
    }
  }

  lemma BeginKeepsInv(st: State, d: Definition)
    requires Inv(st) && Begin(st, d).Ok?
    ensures Inv(Begin(st, d).value)
  {
    TaskEnsured(Instance(d, d.start, Running, [], []), d.start);
    hide EnsureTask, TaskKey, Replay, EndsAt, Defined;
    var after := Begin(st, d).value;
    var i := after.instances[|st.instances|];
    assert Replay(d, []) == Some(d.start) by { ReplayNothing(d); }
    assert Defined(d, d.start);
    assert InstanceInv(i, st.used);
  }

  lemma ReplayNothing(d: Definition)
    ensures Replay(d, []) == Some(d.start)
  {
  }

  lemma FollowKeeps(i: Instance, used: set<string>, id: string, event: string, target: string)
    requires InstanceInv(i, used) && i.status == Running && id !in used
    requires i.step in i.definition.steps && event in i.definition.steps[i.step].on
    requires target == i.definition.steps[i.step].on[event] && target in i.definition.steps
    ensures InstanceInv(Follow(i, id, event, target), used + {id})
    ensures Follow(i, id, event, target).log == i.log + [Transition(id, i.step, target, event)]
  {
    var t := Transition(id, i.step, target, event);
    var moved := i.(step := target, log := i.log + [t],
                    status := if EndsAt(i.definition, target) then Completed else Running);
    TaskEnsured(moved, target);
    assert moved.log[..|i.log|] == i.log;
    hide EnsureTask, TaskKey;
    assert forall x :: x in moved.log ==> x in i.log || x == t;
    assert forall a :: 0 <= a < |i.log| ==> i.log[a] in i.log;
  }

  lemma ApplyKeepsInv(st: State, k: nat, id: string, event: string)
    requires Inv(st) && Apply(st, k, id, event).Ok?
    ensures Inv(Apply(st, k, id, event).value)
  {
    var after := Apply(st, k, id, event).value;
    if after != st {
      var i := st.instances[k];
      var target := i.definition.steps[i.step].on[event];
      FollowKeeps(i, st.used, id, event, target);
      hide Follow, Replay, TaskKey, Defined, EndsAt;
      forall j | j in after.instances ensures InstanceInv(j, after.used) {
        if j != after.instances[k] { assert j in st.instances; }
      }
      forall a, b | 0 <= a < b < |after.instances| ensures Apart(after.instances[a], after.instances[b]) {
        assert Apart(st.instances[a], st.instances[b]);
        var other := if a == k then b else a;
        assert st.instances[other] in st.instances;
      }
    }
  }

  lemma CancelKeepsInv(st: State, k: nat)
    requires Inv(st) && CancelInstance(st, k).Ok?
    ensures Inv(CancelInstance(st, k).value)
  {
    hide Replay, TaskKey, Defined, EndsAt;
    var after := CancelInstance(st, k).value;
    assert st.instances[k] in st.instances;
    forall j | j in after.instances ensures InstanceInv(j, after.used) {
      if j != after.instances[k] { assert j in st.instances; }
    }
    forall a, b | 0 <= a < b < |after.instances| ensures Apart(after.instances[a], after.instances[b]) {
      assert Apart(st.instances[a], st.instances[b]);
    }
  }

  lemma {:induction false} RunKeepsInv(ops: seq<Op>)
    ensures Inv(Run(EMPTY, ops))
  {
    if ops != [] {
      var before, op := Run(EMPTY, ops[..|ops| - 1]), ops[|ops| - 1];
      RunKeepsInv(ops[..|ops| - 1]);
      hide Inv, Begin, Apply, CancelInstance;
      if Perform(before, op).Ok? {
        match op
        case OpBegin(d) => BeginKeepsInv(before, d);
        case OpApply(k, id, event) => ApplyKeepsInv(before, k, id, event);
        case OpCancel(k) => CancelKeepsInv(before, k);
      }
    }
  }

  /** Main result, over every run and for every definition: replaying an instance's log from the start of
      its definition gives its current step, which is defined and has its task; a task key has one task;
      and no event id was ever recorded twice. */
  lemma LogExplainsStep(ops: seq<Op>, k: nat)
    requires k < |Run(EMPTY, ops).instances|
    ensures var i := Run(EMPTY, ops).instances[k];
            && Replay(i.definition, i.log) == Some(i.step) && Defined(i.definition, i.step)
            && (forall a, b :: 0 <= a < b < |i.tasks| ==> i.tasks[a].key != i.tasks[b].key)
            && (exists t :: t in i.tasks && t.key == TaskKey(i.definition, i.step))
            && (i.log != [] && i.status == Running ==> !EndsAt(i.definition, i.step))
    ensures forall j :: 0 <= j < |Run(EMPTY, ops).instances| && j != k ==>
              Apart(Run(EMPTY, ops).instances[k], Run(EMPTY, ops).instances[j])
  {
    RunKeepsInv(ops);
    var st := Run(EMPTY, ops);
    hide Run, Replay, TaskKey, Defined, EndsAt;
    assert st.instances[k] in st.instances;
    forall j | 0 <= j < |st.instances| && j != k ensures Apart(st.instances[k], st.instances[j]) {
      assert Apart(st.instances[if j < k then j else k], st.instances[if j < k then k else j]);
    }
  }

  lemma StepStays(st: State, op: Op)
    ensures |st.instances| <= |Step(st, op).instances| && st.used <= Step(st, op).used
    ensures forall k :: 0 <= k < |st.instances| && st.instances[k].status != Running ==>
              Step(st, op).instances[k] == st.instances[k]
    ensures op.OpApply? && op.id in st.used ==> Step(st, op) == st
  {
    hide EnsureTask, Follow;
  }

  /** Whatever runs later: completed and cancelled instances never move again, and an event id that was used
      changes nothing. */
  lemma {:induction false} TerminalStays(st: State, ops: seq<Op>)
    ensures |st.instances| <= |Run(st, ops).instances| && st.used <= Run(st, ops).used
    ensures forall k :: 0 <= k < |st.instances| && st.instances[k].status != Running ==>
              Run(st, ops).instances[k] == st.instances[k]
    ensures forall k, id, event :: id in st.used ==> Step(Run(st, ops), OpApply(k, id, event)) == Run(st, ops)
  {
    if ops != [] {
      TerminalStays(st, ops[..|ops| - 1]);
      StepStays(Run(st, ops[..|ops| - 1]), ops[|ops| - 1]);
    }
    hide Step;
    forall k, id, event | id in st.used ensures Step(Run(st, ops), OpApply(k, id, event)) == Run(st, ops) {
      StepStays(Run(st, ops), OpApply(k, id, event));
    }
  }

  // ---------------------------------------------------------------- the engine as it runs

  class Engine {
    var instances: seq<Instance>
    var used: set<string>

    constructor ()
      ensures Snapshot() == EMPTY
    {
      instances, used := [], {};
    }

    function Snapshot(): State
      reads this
    {
      State(instances, used)
    }

    /** A task for the step, unless its key has one. */
    method CreateTask(i: Instance, step: string) returns (after: Instance)
      ensures after == EnsureTask(i, step)
    {
      var key := TaskKey(i.definition, step);
      for n := 0 to |i.tasks|
        invariant forall k :: 0 <= k < n ==> i.tasks[k].key != key
      {
        if i.tasks[n].key == key {
          assert i.tasks[n] in i.tasks;
          return i;
        }
      }
      after := i.(tasks := i.tasks + [Task(step, key)]);
    }

    method Start(d: Definition) returns (error: Option<Error>)
      modifies this`instances
      ensures Answer(error, Snapshot(), old(Begin(Snapshot(), d)), old(Snapshot()))
    {
      if !Defined(d, d.start) { return Some(StartUndefined); }
      var i := CreateTask(Instance(d, d.start, Running, [], []), d.start);
      instances := instances + [i];
      error := None;
    }

    method ApplyEvent(k: nat, id: string, event: string) returns (error: Option<Error>)
      modifies this
      ensures Answer(error, Snapshot(), old(Apply(Snapshot(), k, id, event)), old(Snapshot()))
    {
      hide EnsureTask, TaskKey;
      if id == "" || event == "" { return Some(NoEvent); }
      if k >= |instances| { return Some(NotFound); }
      if id in used { return None; }
      var i := instances[k];
      if i.status != Running { return Some(NotActive); }
      if i.step !in i.definition.steps { return Some(InvalidStep); }
      if event !in i.definition.steps[i.step].on { return Some(NotAccepted); }
      var target := i.definition.steps[i.step].on[event];
      if !Defined(i.definition, target) { return Some(TargetUndefined); }
      if target !in i.definition.steps { return Some(InvalidStep); }
      i := i.(log := i.log + [Transition(id, i.step, target, event)], step := target,
              status := if i.definition.steps[target].terminal then Completed else Running);
      i := CreateTask(i, target);
      instances := instances[k := i];
      used := used + {id};
      error := None;
    }

    method Cancel(k: nat) returns (error: Option<Error>)
      modifies this`instances
      ensures Answer(error, Snapshot(), old(CancelInstance(Snapshot(), k)), old(Snapshot()))
    {
      if k >= |instances| { return Some(NotFound); }
      if instances[k].status != Running { return Some(AlreadyTerminal); }
      instances := instances[k := instances[k].(status := Cancelled)];
      error := None;
    }
  }

  /** The new rows, or the error and the old rows. */
  predicate Answer(error: Option<Error>, after: State, r: Result<State, Error>, before: State) {
    match r
    case Ok(st) => error == None && after == st
    case Err(e) => error == Some(e) && after == before
  }
}
