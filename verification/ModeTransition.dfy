/** Plan/Build workflow transitions of a live runner.

A root task asks for a mode change with `set_mode`; the change takes effect at the next request boundary, after the
task's children have settled. Every critical section is one function on the values its lock guards. `LiveRunner` and
`Transition` are the objects that run those sections in place; `Step` interleaves them with operator overrides, tool
calls, children and background processes, and the lemmas at the end speak about every schedule of those steps. */
module ModeTransition {
  import opened Base

  const MAX_CHANGES: nat := 4
  const SET_MODE := "set_mode"
  const AGENT_SPAWN := "agent_spawn"
  const BASH := "bash"

  // ---------------------------------------------------------------- guarded values

  /** What the runner's own mutex guards. */
  datatype Live = Live(plan: bool, readOnly: bool, generation: nat) {
    predicate IsPlan() { plan || readOnly }
  }

  datatype Pending = Pending(plan: bool, reason: string, generation: nat)

  /** What the per-turn transition's mutex guards. An empty task id means no owner. */
  datatype Turn = Turn(taskID: string, generation: nat, changes: nat, pending: Option<Pending>)

  datatype Event = ModeChanged(taskID: string, plan: bool, reason: string, generation: nat)

  datatype Caller = Caller(depth: nat, id: string, cancelled: bool)

  datatype Args = Args(mode: string, reason: string)

  datatype Reply =
    | Accepted | AlreadyPending | AlreadyInMode
    | BadMode | BadReason | Cancelled | NotOwner | Superseded | Ceiling | Conflict | Budget | Background

  /** The critical section of `set_mode`. Only the last branch changes anything. */
  function Request(l: Live, t: Turn, caller: Caller, args: Args, background: bool): (Turn, Reply) {
    var plan := args.mode == "plan";
    if args.mode != "plan" && args.mode != "build" then (t, BadMode)
    else if ByteLength(args.reason) > 256 || Blank(args.reason) then (t, BadReason)
    else if caller.cancelled then (t, Cancelled)
    else if caller.depth != 0 || caller.id != t.taskID || t.taskID == "" then (t, NotOwner)
    else if t.generation != l.generation then (t, Superseded)
    else if l.readOnly && !plan then (t, Ceiling)
    else if t.pending.Some? then (t, if t.pending.value.plan == plan then AlreadyPending else Conflict)
    else if l.plan == plan then (t, AlreadyInMode)
    else if t.changes >= MAX_CHANGES then (t, Budget)
    else if plan && background then (t, Background)
    else (t.(pending := Some(Pending(plan, args.reason, t.generation))), Accepted)
  }

  datatype Applied = Applied(live: Live, turn: Turn, event: Option<Event>, refused: bool)

  /** The second critical section of a request boundary: publish, drop, or refuse the pending change. */
  function Publish(l: Live, t: Turn, background: bool): Applied {
    if t.pending.Some? && t.pending.value.generation == l.generation then
      var p := t.pending.value;
      if p.plan && background then Applied(l, t, None, true)
      else
        var l' := Live(p.plan, l.readOnly, l.generation + 1);
        Applied(l', Turn(t.taskID, l'.generation, t.changes + 1, None),
                Some(ModeChanged(t.taskID, p.plan, p.reason, l'.generation)), false)
    else
      Applied(l, Turn(t.taskID, l.generation, t.changes, None), None, false)
  }

  /** The first critical section of a request boundary: adopt the task, and settle its children if a change is
  pending. */
  function Adopt(t: Turn, id: string): (Turn, bool) {
    (t.(taskID := id), t.pending.Some?)
  }

  /** The test in front of every call but `set_mode`: the root is deferred while a change is pending, children are
  not. */
  predicate Deferring(t: Turn, root: bool) {
    root && t.pending.Some?
  }

  function Forget(t: Turn, id: string): Turn {
    if t.taskID == id then Turn("", t.generation, 0, None) else t
  }

  function Override(l: Live, on: bool): Live {
    Live(on || l.readOnly, l.readOnly, l.generation + 1)
  }

  // ---------------------------------------------------------------- the objects

  class LiveRunner {
    var plan: bool
    const readOnly: bool
    var modeGeneration: nat

    constructor (readOnly: bool)
      ensures Value() == Live(readOnly, readOnly, 0)
    {
      this.readOnly := readOnly;
      plan := readOnly;
      modeGeneration := 0;
    }

    ghost function Value(): Live
      reads this
    {
      Live(plan, readOnly, modeGeneration)
    }

    /** An operator toggle; after the runtime's admission has closed it does nothing. */
    method SetPlanMode(on: bool, admitted: bool)
      modifies this
      ensures Value() == if admitted then Override(old(Value()), on) else old(Value())
    {
      if !admitted { return; }
      plan := on || readOnly;
      modeGeneration := modeGeneration + 1;
    }

    method IsPlan() returns (b: bool)
      ensures b == Value().IsPlan()
    {
      b := plan || readOnly;
    }
  }

  class Transition {
    const live: LiveRunner
    var taskID: string
    var generation: nat
    var changes: nat
    var pending: Option<Pending>

    constructor (live: LiveRunner)
      ensures this.live == live && Value() == Turn("", 0, 0, None)
    {
      this.live := live;
      taskID := "";
      generation := 0;
      changes := 0;
      pending := None;
    }

    ghost function Value(): Turn
      reads this
    {
      Turn(taskID, generation, changes, pending)
    }

    method RequestMode(caller: Caller, args: Args, background: bool) returns (reply: Reply)
      modifies this
      ensures (Value(), reply) == Request(live.Value(), old(Value()), caller, args, background)
    {
      var plan := false;
      if args.mode == "plan" {
        plan := true;
      } else if args.mode != "build" {
        return BadMode;
      }
      if ByteLength(args.reason) > 256 || Blank(args.reason) { return BadReason; }
      if caller.cancelled { return Cancelled; }
      if caller.depth != 0 || caller.id != taskID || taskID == "" { return NotOwner; }
      if generation != live.modeGeneration { return Superseded; }
      if live.readOnly && !plan { return Ceiling; }
      if pending.Some? {
        if pending.value.plan == plan { return AlreadyPending; }
        return Conflict;
      }
      if live.plan == plan { return AlreadyInMode; }
      if changes >= MAX_CHANGES { return Budget; }
      if plan && background { return Background; }
      pending := Some(Pending(plan, args.reason, generation));
      return Accepted;
    }

    /** First critical section of a request boundary: adopt the task and look for a pending change. */
    method BeginApply(id: string) returns (mustSettle: bool)
      modifies this
      ensures (Value(), mustSettle) == Adopt(old(Value()), id)
    {
      taskID := id;
      mustSettle := pending.Some?;
    }

    method PublishPending(background: bool) returns (event: Option<Event>, refused: bool)
      modifies this, live
      ensures Applied(live.Value(), Value(), event, refused) == Publish(old(live.Value()), old(Value()), background)
    {
      event := None;
      if pending.Some? && pending.value.generation == live.modeGeneration {
        var p := pending.value;
        if p.plan && background {
          return None, true;
        }
        live.plan := p.plan;
        live.modeGeneration := live.modeGeneration + 1;
        changes := changes + 1;
        event := Some(ModeChanged(taskID, p.plan, p.reason, live.modeGeneration));
      }
      pending := None;
      generation := live.modeGeneration;
      refused := false;
    }

    /** The test every non-`set_mode` call passes before it may reach the inner source. */
    method Defers(depth: nat) returns (deferred: bool)
      ensures deferred == Deferring(Value(), depth == 0)
    {
      deferred := pending.Some? && depth == 0;
    }

    method ForgetTask(id: string)
      modifies this
      ensures Value() == Forget(old(Value()), id)
    {
      if taskID == id {
        pending := None;
        taskID := "";
        changes := 0;
      }
    }
  }

  // ---------------------------------------------------------------- interleavings

  datatype Owner = Root | Child(id: nat)

  /** A tool call past the pending check; `running` once the mode filter let it into the inner source. */
  datatype Call = Call(owner: Owner, tool: string, running: bool)

  /** Where the root task is: dispatching a batch, or inside the two halves of a request boundary. */
  datatype Phase = Dispatching | Settling | Publishing

  datatype Entry =
    | Took(pending: Pending)
    | Published(event: Event)
    | Dropped
    | Overridden
    | Forgotten
    | Reached(owner: Owner, tool: string)

  datatype State = State(
    allowed: set<string>,
    live: Live,
    turn: Turn,
    phase: Phase,
    calls: map<nat, Call>,
    children: set<nat>,
    procs: set<nat>,
    log: seq<Entry>)

  datatype Label =
    | Toggle(on: bool)
    | SetMode(caller: Caller, args: Args)
    | Admit(call: nat, owner: Owner, tool: string)
    | Filter(call: nat)
    | Return(call: nat)
    | Spawn(call: nat, child: nat)
    | StartProcess(call: nat, proc: nat)
    | ExitChild(child: nat)
    | ExitProcess(proc: nat)
    | BeginApply(id: string)
    | Settle
    | AbortApply
    | FinishApply
    | ForgetTask(id: string)

  function Init(allowed: set<string>, readOnly: bool): State {
    State(allowed, Live(readOnly, readOnly, 0), Turn("", 0, 0, None), Dispatching, map[], {}, {}, [])
  }

  predicate NoRootCall(s: State) {
    forall k | k in s.calls :: !s.calls[k].owner.Root?
  }

  /** A live owner may issue a call: the root only while it dispatches, a child while it runs. */
  predicate MayCall(s: State, owner: Owner) {
    match owner
    case Root => s.phase == Dispatching
    case Child(id) => id in s.children
  }

  predicate InFlight(s: State, call: nat, tool: string) {
    call in s.calls && s.calls[call].running && s.calls[call].tool == tool
  }

  /** `set_mode` is a dispatch barrier: the root issues it only with no other root call in flight. */
  function SetModeStep(s: State, caller: Caller, args: Args): State {
    if caller.depth == 0 && !(s.phase == Dispatching && NoRootCall(s)) then s
    else
      var (t, reply) := Request(s.live, s.turn, caller, args, s.procs != {});
      if reply == Accepted && t.pending.Some? then s.(turn := t, log := s.log + [Took(t.pending.value)])
      else s.(turn := t)
  }

  /** The pending check in front of every other call. */
  function AdmitStep(s: State, call: nat, owner: Owner, tool: string): State {
    if call in s.calls || tool == SET_MODE || !MayCall(s, owner) || Deferring(s.turn, owner.Root?) then s
    else s.(calls := s.calls[call := Call(owner, tool, false)])
  }

  /** The mode filter in front of the inner source. */
  function FilterStep(s: State, call: nat): State {
    if call !in s.calls || s.calls[call].running then s
    else if s.live.IsPlan() && s.calls[call].tool !in s.allowed then s.(calls := s.calls - {call})
    else s.(calls := s.calls[call := s.calls[call].(running := true)],
            log := s.log + [Reached(s.calls[call].owner, s.calls[call].tool)])
  }

  function BeginStep(s: State, id: string): State {
    if s.phase == Dispatching && NoRootCall(s) then
      var (t, settle) := Adopt(s.turn, id);
      s.(turn := t, phase := if settle then Settling else Publishing)
    else s
  }

  function FinishStep(s: State): State {
    if s.phase != Publishing then s
    else
      var a := Publish(s.live, s.turn, s.procs != {});
      var s' := s.(live := a.live, turn := a.turn, phase := Dispatching);
      if a.refused then s'
      else if a.event.Some? then s'.(log := s.log + [Published(a.event.value)])
      else s'.(log := s.log + [Dropped])
  }

  function ForgetStep(s: State, id: string): State {
    if id != s.turn.taskID then s else s.(turn := Forget(s.turn, id), log := s.log + [Forgotten])
  }

  /** One step of a schedule. A label that is not enabled leaves the state alone. Children and processes come into being
  only inside a running `agent_spawn` or `bash` call. */
  function Step(s: State, l: Label): State {
    match l
    case Toggle(on) => s.(live := Override(s.live, on), log := s.log + [Overridden])
    case SetMode(caller, args) => SetModeStep(s, caller, args)
    case Admit(call, owner, tool) => AdmitStep(s, call, owner, tool)
    case Filter(call) => FilterStep(s, call)
    case Return(call) => s.(calls := s.calls - {call})
    case Spawn(call, child) =>
      if InFlight(s, call, AGENT_SPAWN) then s.(children := s.children + {child}) else s
    case StartProcess(call, proc) =>
      if InFlight(s, call, BASH) then s.(procs := s.procs + {proc}) else s
    case ExitChild(child) =>
      if forall k | k in s.calls :: s.calls[k].owner != Child(child) then s.(children := s.children - {child}) else s
    case ExitProcess(proc) => s.(procs := s.procs - {proc})
    case BeginApply(id) => BeginStep(s, id)
    case Settle => if s.phase == Settling && s.children == {} then s.(phase := Publishing) else s
    case AbortApply => s.(phase := Dispatching)
    case FinishApply => FinishStep(s)
    case ForgetTask(id) => ForgetStep(s, id)
  }

  function Exec(s: State, schedule: seq<Label>): State {
    if schedule == [] then s else Step(Exec(s, schedule[..|schedule| - 1]), schedule[|schedule| - 1])
  }

  // ---------------------------------------------------------------- history vocabulary

  predicate Boundary(e: Entry) {
    e.Published? || e.Dropped? || e.Forgotten?
  }

  /** The index of an acceptance no boundary has closed yet. */
  function OpenAt(log: seq<Entry>): (r: Option<nat>)
    ensures r.Some? ==> r.value < |log| && log[r.value].Took?
    ensures r.Some? ==> forall m | r.value < m < |log| :: log[m].Overridden? || log[m].Reached?
  {
    if log == [] then None
    else
      var last := |log| - 1;
      if log[last].Took? then Some(last)
      else if Boundary(log[last]) then None
      else OpenAt(log[..last])
  }

  /** When nothing is open, a boundary has closed every acceptance. */
  lemma {:induction false} ClosedAfter(log: seq<Entry>, j: nat) returns (b: nat)
    requires OpenAt(log).None? && j < |log| && log[j].Took?
    ensures j < b < |log| && Boundary(log[b])
  {
    var last := |log| - 1;
    if Boundary(log[last]) {
      b := last;
    } else {
      b := ClosedAfter(log[..last], j);
    }
  }

  /** How often the generation counter has moved. */
  function Moves(log: seq<Entry>): nat {
    if log == [] then 0
    else Moves(log[..|log| - 1]) + (var e := log[|log| - 1]; if e.Published? || e.Overridden? then 1 else 0)
  }

  /** Publications since the task was last forgotten. */
  function Spent(log: seq<Entry>): nat {
    if log == [] then 0
    else
      var e := log[|log| - 1];
      if e.Forgotten? then 0 else Spent(log[..|log| - 1]) + (if e.Published? then 1 else 0)
  }

  function Publications(log: seq<Entry>): nat {
    if log == [] then 0 else Publications(log[..|log| - 1]) + (if log[|log| - 1].Published? then 1 else 0)
  }

  /** The latest mode change was an autonomous switch to Plan. */
  predicate PlanPublished(log: seq<Entry>) {
    if log == [] then false
    else
      var e := log[|log| - 1];
      if e.Published? then e.event.plan else !e.Overridden? && PlanPublished(log[..|log| - 1])
  }

  /** Entry `k` publishes exactly what an earlier entry accepted, and nothing but children ran in between. */
  ghost predicate Justified(log: seq<Entry>, k: nat)
    requires k < |log| && log[k].Published?
  {
    exists j :: JustifiedBy(log, j, k)
  }

  ghost predicate JustifiedBy(log: seq<Entry>, j: nat, k: nat)
    requires k < |log| && log[k].Published?
  {
    && j < k
    && log[j].Took?
    && log[j].pending.plan == log[k].event.plan
    && log[j].pending.reason == log[k].event.reason
    && forall m | j < m < k :: log[m].Reached? && log[m].owner.Child?
  }

  /** No root call reached the inner source between acceptance `j` and entry `k` without a boundary in between. */
  ghost predicate Deferred(log: seq<Entry>, j: nat, k: nat)
    requires j < k < |log| && log[j].Took? && log[k].Reached? && log[k].owner.Root?
  {
    exists b :: j < b < k && Boundary(log[b])
  }

  // ---------------------------------------------------------------- the invariant

  /** Calls belong to live owners, and a pending change excludes root calls. */
  ghost predicate CallsOk(s: State) {
    && (forall k | k in s.calls && s.calls[k].owner.Child? :: s.calls[k].owner.id in s.children)
    && (s.turn.pending.Some? || s.phase != Dispatching ==> NoRootCall(s))
    && (s.phase == Publishing && s.turn.pending.Some? ==> s.children == {})
  }

  /** After an autonomous switch to Plan nothing outside the Plan surface runs until the next mode change. */
  ghost predicate QuietOk(s: State) {
    && (PlanPublished(s.log) ==>
          && s.live.plan
          && s.procs == {}
          && forall k | k in s.calls && s.calls[k].running :: s.calls[k].tool in s.allowed)
    && (forall k | 0 <= k < |s.log| && s.log[k].Reached? && PlanPublished(s.log[..k]) :: s.log[k].tool in s.allowed)
  }

  ghost predicate PendingOk(s: State) {
    match s.turn.pending
    case None => OpenAt(s.log).None?
    case Some(p) =>
      var open := OpenAt(s.log);
      && open.Some?
      && s.log[open.value].pending == p
      && (forall m | open.value < m < |s.log| :: s.log[m].Reached? ==> s.log[m].owner.Child?)
      && p.generation <= s.live.generation
      && (p.generation == s.live.generation ==>
            && p.plan != s.live.plan
            && forall m | open.value < m < |s.log| :: !s.log[m].Overridden?)
      && s.turn.changes < MAX_CHANGES
  }

  ghost predicate CountsOk(s: State) {
    && s.live.generation == Moves(s.log)
    && s.turn.changes == Spent(s.log) <= MAX_CHANGES
    && WithinBudget(s.log) && Numbered(s.log)
  }

  /** At no moment were more than four changes applied since the last forget. */
  predicate WithinBudget(log: seq<Entry>) {
    forall k | 0 <= k <= |log| :: Spent(log[..k]) <= MAX_CHANGES
  }

  /** Every publication carries the generation it made. */
  predicate Numbered(log: seq<Entry>) {
    forall k | 0 <= k < |log| && log[k].Published? :: log[k].event.generation == Moves(log[..k + 1])
  }

  ghost predicate HistoryOk(s: State) {
    && (forall k | 0 <= k < |s.log| && s.log[k].Published? :: Justified(s.log, k))
    && (forall j, k | 0 <= j < k < |s.log| && s.log[j].Took? && s.log[k].Reached? && s.log[k].owner.Root? ::
          Deferred(s.log, j, k))
  }

  /** Under the inspect-only ceiling the runner stays in Plan and only Plan tools were ever reached. */
  ghost predicate CeilingOk(s: State) {
    s.live.readOnly ==>
      && s.live.plan
      && (s.turn.pending.Some? ==> s.turn.pending.value.plan)
      && forall k | 0 <= k < |s.log| && s.log[k].Reached? :: s.log[k].tool in s.allowed
  }

  /** The part of the invariant about the workspace, and the part about the record. */
  ghost predicate WorldOk(s: State) {
    CallsOk(s) && CeilingOk(s)
  }

  ghost predicate RecordOk(s: State) {
    PendingOk(s) && CountsOk(s) && HistoryOk(s)
  }

  ghost predicate Inv(s: State) {
    WorldOk(s) && RecordOk(s)
  }

  /** `QuietOk` is kept apart: it is the one part that turns on `bash` being outside the Plan surface. */
  ghost predicate StaysQuiet(s: State, s': State) {
    QuietOk(s) ==> QuietOk(s')
  }

  // ---------------------------------------------------------------- every step keeps it

  lemma Appended(log: seq<Entry>, e: Entry)
    ensures OpenAt(log + [e]) ==
            if e.Took? then Some(|log|) else if Boundary(e) then None else OpenAt(log)
    ensures PlanPublished(log + [e]) ==
            if e.Published? then e.event.plan else !e.Overridden? && PlanPublished(log)
    ensures forall k | 0 <= k <= |log| :: (log + [e])[..k] == log[..k]
  {
    assert (log + [e])[..|log|] == log;
  }

  lemma AppendedCounts(log: seq<Entry>, e: Entry)
    ensures Moves(log + [e]) == Moves(log) + (if e.Published? || e.Overridden? then 1 else 0)
    ensures Spent(log + [e]) == if e.Forgotten? then 0 else Spent(log) + (if e.Published? then 1 else 0)
  {
    assert (log + [e])[..|log|] == log;
  }

  lemma ExtendJustified(log: seq<Entry>, e: Entry)
    requires forall k | 0 <= k < |log| && log[k].Published? :: Justified(log, k)
    requires e.Published? ==> Justified(log + [e], |log|)
    ensures forall k | 0 <= k <= |log| && (log + [e])[k].Published? :: Justified(log + [e], k)
  {
    var log' := log + [e];
    forall k | 0 <= k <= |log| && log'[k].Published?
      ensures Justified(log', k)
    {
      if k < |log| {
        var j :| JustifiedBy(log, j, k);
        assert JustifiedBy(log', j, k);
      }
    }
  }

  lemma ExtendDeferred(log: seq<Entry>, e: Entry, j: nat, k: nat)
    requires j < k <= |log| && log[j].Took? && (log + [e])[k].Reached? && (log + [e])[k].owner.Root?
    requires k < |log| ==> Deferred(log, j, k)
    requires k == |log| ==> OpenAt(log).None?
    ensures Deferred(log + [e], j, k)
  {
    var log' := log + [e];
    if k < |log| {
      var b :| j < b < k && Boundary(log[b]);
      assert Boundary(log'[b]);
    } else {
      var b := ClosedAfter(log, j);
      assert Boundary(log'[b]);
    }
  }

  /** The history conditions survive an appended entry that is itself in order. */
  lemma ExtendHistory(s: State, s': State, e: Entry)
    requires HistoryOk(s) && s'.log == s.log + [e]
    requires e.Published? ==> Justified(s'.log, |s.log|)
    requires e.Reached? && e.owner.Root? ==> OpenAt(s.log).None?
    ensures HistoryOk(s')
  {
    ExtendJustified(s.log, e);
    forall j, k | 0 <= j < k < |s'.log| && s'.log[j].Took? && s'.log[k].Reached? && s'.log[k].owner.Root?
      ensures Deferred(s'.log, j, k)
    {
      ExtendDeferred(s.log, e, j, k);
    }
  }

  lemma ExtendBudget(log: seq<Entry>, more: seq<Entry>)
    requires |more| == |log| + 1 && log == more[..|log|] && WithinBudget(log) && Spent(more) <= MAX_CHANGES
    ensures WithinBudget(more)
  {
    forall k | 0 <= k <= |more|
      ensures Spent(more[..k]) <= MAX_CHANGES
    {
      assert k <= |log| ==> more[..k] == log[..k];
      assert k == |more| ==> more[..k] == more;
    }
  }

  lemma ExtendNumbers(log: seq<Entry>, more: seq<Entry>)
    requires |more| == |log| + 1 && log == more[..|log|] && Numbered(log)
    requires more[|log|].Published? ==> more[|log|].event.generation == Moves(more)
    ensures Numbered(more)
  {
    forall k | 0 <= k < |more| && more[k].Published?
      ensures more[k].event.generation == Moves(more[..k + 1])
    {
      assert k < |log| ==> more[..k + 1] == log[..k + 1] && more[k] == log[k];
      assert k == |log| ==> more[..k + 1] == more;
    }
  }

  lemma ExtendCounts(s: State, s': State, e: Entry)
    requires CountsOk(s) && s'.log == s.log + [e]
    requires s'.live.generation == s.live.generation + (if e.Published? || e.Overridden? then 1 else 0)
    requires e.Published? ==> e.event.generation == s'.live.generation
    requires s'.turn.changes == (if e.Forgotten? then 0 else s.turn.changes + (if e.Published? then 1 else 0))
    requires s'.turn.changes <= MAX_CHANGES
    ensures CountsOk(s')
  {
    AppendedCounts(s.log, e);
    assert s.log == s'.log[..|s.log|];
    ExtendBudget(s.log, s'.log);
    ExtendNumbers(s.log, s'.log);
  }

  /** The record does not notice a step that leaves the log, the pending change and the counters alone. */
  lemma SameRecord(s: State, s': State)
    requires RecordOk(s) && s'.log == s.log
    requires s'.turn.pending == s.turn.pending && s'.turn.changes == s.turn.changes
    requires s'.live.plan == s.live.plan && s'.live.generation == s.live.generation
    ensures RecordOk(s')
  {
    assert PendingOk(s');
  }

  lemma ToggleRecord(s: State, on: bool)
    requires RecordOk(s)
    ensures RecordOk(Step(s, Toggle(on)))
  {
    var s' := Step(s, Toggle(on));
    Appended(s.log, Overridden);
    ExtendHistory(s, s', Overridden);
    ExtendCounts(s, s', Overridden);
  }

  lemma ToggleWorld(s: State, on: bool)
    requires WorldOk(s)
    ensures WorldOk(Step(s, Toggle(on))) && StaysQuiet(s, Step(s, Toggle(on)))
  {
    Appended(s.log, Overridden);
  }

  lemma SetModeRecord(s: State, caller: Caller, args: Args)
    requires RecordOk(s)
    ensures RecordOk(SetModeStep(s, caller, args))
  {
    var s' := SetModeStep(s, caller, args);
    if s'.log != s.log {
      SetModeTakes(s, caller, args);
      var e := Took(s'.turn.pending.value);
      TookPending(s, s');
      ExtendHistory(s, s', e);
      ExtendCounts(s, s', e);
    } else {
      SameRecord(s, s');
    }
  }

  /** An accepted request leaves everything but the pending change and the log alone. */
  predicate Takes(s: State, s': State) {
    && s'.turn.pending.Some? && s'.log == s.log + [Took(s'.turn.pending.value)]
    && s'.live == s.live && s'.turn.changes == s.turn.changes < MAX_CHANGES
    && s'.turn.pending.value.generation == s.live.generation && s'.turn.pending.value.plan != s.live.plan
  }

  lemma SetModeTakes(s: State, caller: Caller, args: Args)
    requires SetModeStep(s, caller, args).log != s.log
    ensures Takes(s, SetModeStep(s, caller, args))
  {
  }

  lemma TookPending(s: State, s': State)
    requires Takes(s, s')
    ensures PendingOk(s')
  {
    Appended(s.log, Took(s'.turn.pending.value));
  }

  lemma SetModeWorld(s: State, caller: Caller, args: Args)
    requires WorldOk(s)
    ensures WorldOk(SetModeStep(s, caller, args)) && StaysQuiet(s, SetModeStep(s, caller, args))
  {
    var s' := SetModeStep(s, caller, args);
    if s'.log != s.log {
      Appended(s.log, Took(s'.turn.pending.value));
    }
  }

  lemma AdmitKeeps(s: State, call: nat, owner: Owner, tool: string)
    requires Inv(s)
    ensures Inv(AdmitStep(s, call, owner, tool)) && StaysQuiet(s, AdmitStep(s, call, owner, tool))
  {
    SameRecord(s, AdmitStep(s, call, owner, tool));
  }

  lemma FilterRecord(s: State, call: nat)
    requires RecordOk(s) && CallsOk(s)
    ensures RecordOk(FilterStep(s, call))
  {
    var s' := FilterStep(s, call);
    if s'.log != s.log {
      var e := Reached(s.calls[call].owner, s.calls[call].tool);
      ReachedPending(s, s', e);
      ExtendHistory(s, s', e);
      ExtendCounts(s, s', e);
    } else {
      SameRecord(s, s');
    }
  }

  /** A call that reaches the inner source leaves a pending change as it is; a root call finds none. */
  lemma ReachedPending(s: State, s': State, e: Entry)
    requires PendingOk(s) && e.Reached? && s'.log == s.log + [e] && s'.live == s.live && s'.turn == s.turn
    requires s.turn.pending.Some? ==> e.owner.Child?
    ensures PendingOk(s') && (e.owner.Root? ==> OpenAt(s.log).None?)
  {
    Appended(s.log, e);
  }

  lemma FilterWorld(s: State, call: nat)
    requires WorldOk(s)
    ensures WorldOk(FilterStep(s, call)) && StaysQuiet(s, FilterStep(s, call))
  {
    FilterCalls(s, call);
    FilterCeiling(s, call);
    FilterQuiet(s, call);
  }

  lemma FilterCalls(s: State, call: nat)
    requires CallsOk(s)
    ensures CallsOk(FilterStep(s, call))
  {
  }

  lemma FilterCeiling(s: State, call: nat)
    requires CeilingOk(s)
    ensures CeilingOk(FilterStep(s, call))
  {
  }

  lemma FilterQuiet(s: State, call: nat)
    ensures StaysQuiet(s, FilterStep(s, call))
  {
    var s' := FilterStep(s, call);
    if s'.log != s.log {
      Appended(s.log, Reached(s.calls[call].owner, s.calls[call].tool));
    }
  }

  lemma QuietKeeps(s: State, l: Label)
    requires Inv(s)
    requires l.Return? || l.Spawn? || l.StartProcess? || l.ExitChild? || l.ExitProcess?
    ensures Inv(Step(s, l)) && (BASH !in s.allowed ==> StaysQuiet(s, Step(s, l)))
  {
    SameRecord(s, Step(s, l));
  }

  /** The workspace is at rest when a change is published. */
  lemma AtRest(s: State)
    requires CallsOk(s) && s.phase == Publishing && s.turn.pending.Some?
    ensures s.calls == map[] && s.children == {}
  {
    assert forall k | k in s.calls :: false;
  }

  lemma PublishRecord(s: State)
    requires RecordOk(s) && s.phase == Publishing
    requires Publish(s.live, s.turn, s.procs != {}).event.Some?
    ensures RecordOk(FinishStep(s))
  {
    var s' := FinishStep(s);
    var e := Published(Publish(s.live, s.turn, s.procs != {}).event.value);
    Appended(s.log, e);
    assert Justified(s'.log, |s.log|) by {
      assert JustifiedBy(s'.log, OpenAt(s.log).value, |s.log|);
    }
    ExtendHistory(s, s', e);
    ExtendCounts(s, s', e);
  }

  lemma PublishWorld(s: State)
    requires WorldOk(s) && s.phase == Publishing
    requires Publish(s.live, s.turn, s.procs != {}).event.Some?
    ensures WorldOk(FinishStep(s)) && StaysQuiet(s, FinishStep(s))
  {
    AtRest(s);
    Appended(s.log, Published(Publish(s.live, s.turn, s.procs != {}).event.value));
  }

  lemma FinishKeeps(s: State)
    requires Inv(s)
    ensures Inv(FinishStep(s)) && StaysQuiet(s, FinishStep(s))
  {
    var s' := FinishStep(s);
    if s'.log == s.log {
      SameRecord(s, s');
    } else if Publish(s.live, s.turn, s.procs != {}).event.Some? {
      PublishRecord(s);
      PublishWorld(s);
    } else {
      Appended(s.log, Dropped);
      ExtendHistory(s, s', Dropped);
      ExtendCounts(s, s', Dropped);
    }
  }

  lemma ForgetKeeps(s: State, id: string)
    requires Inv(s)
    ensures Inv(ForgetStep(s, id)) && StaysQuiet(s, ForgetStep(s, id))
  {
    var s' := ForgetStep(s, id);
    if s'.log != s.log {
      Appended(s.log, Forgotten);
      ExtendHistory(s, s', Forgotten);
      ExtendCounts(s, s', Forgotten);
    }
  }

  lemma PhaseKeeps(s: State, l: Label)
    requires Inv(s) && (l.BeginApply? || l.Settle? || l.AbortApply?)
    ensures Inv(Step(s, l)) && StaysQuiet(s, Step(s, l))
  {
    SameRecord(s, Step(s, l));
  }

  lemma StepKeeps(s: State, l: Label)
    requires Inv(s)
    ensures Inv(Step(s, l)) && (BASH !in s.allowed ==> StaysQuiet(s, Step(s, l)))
  {
    match l
    case Toggle(on) => ToggleRecord(s, on); ToggleWorld(s, on);
    case SetMode(caller, args) => SetModeRecord(s, caller, args); SetModeWorld(s, caller, args);
    case Admit(call, owner, tool) => AdmitKeeps(s, call, owner, tool);
    case Filter(call) => FilterRecord(s, call); FilterWorld(s, call);
    case FinishApply => FinishKeeps(s);
    case ForgetTask(id) => ForgetKeeps(s, id);
    case BeginApply(_) => PhaseKeeps(s, l);
    case Settle => PhaseKeeps(s, l);
    case AbortApply => PhaseKeeps(s, l);
    case _ => QuietKeeps(s, l);
  }

  lemma InitInv(allowed: set<string>, readOnly: bool)
    ensures Inv(Init(allowed, readOnly)) && QuietOk(Init(allowed, readOnly))
  {
  }

  lemma StepConfig(s: State, l: Label)
    ensures Step(s, l).allowed == s.allowed && Step(s, l).live.readOnly == s.live.readOnly
  {
  }

  /** Every schedule of every turn keeps the invariant. */
  lemma {:induction false} AlwaysInv(allowed: set<string>, readOnly: bool, schedule: seq<Label>)
    ensures var s := Exec(Init(allowed, readOnly), schedule);
            && Inv(s) && s.allowed == allowed && s.live.readOnly == readOnly
            && (BASH !in allowed ==> QuietOk(s))
  {
    if schedule == [] {
      InitInv(allowed, readOnly);
    } else {
      var last := |schedule| - 1;
      AlwaysInv(allowed, readOnly, schedule[..last]);
      var s := Exec(Init(allowed, readOnly), schedule[..last]);
      StepKeeps(s, schedule[last]);
      StepConfig(s, schedule[last]);
    }
  }

  // ---------------------------------------------------------------- what every schedule guarantees

  /** The state a schedule of one turn leads to, under the given Plan surface and authority ceiling. */
  function Reach(allowed: set<string>, readOnly: bool, schedule: seq<Label>): State {
    Exec(Init(allowed, readOnly), schedule)
  }

  /** An autonomous change takes effect only as accepted, with no operator override since the acceptance. */
  lemma NoStaleChange(allowed: set<string>, readOnly: bool, schedule: seq<Label>, k: nat)
    requires var log := Reach(allowed, readOnly, schedule).log; k < |log| && log[k].Published?
    ensures Justified(Reach(allowed, readOnly, schedule).log, k)
  {
    AlwaysInv(allowed, readOnly, schedule);
  }

  lemma {:induction false} MovesGrow(log: seq<Entry>, i: nat, j: nat)
    requires i <= j <= |log|
    ensures Moves(log[..i]) <= Moves(log[..j])
  {
    if i < j {
      MovesGrow(log, i, j - 1);
      assert log[..j][..j - 1] == log[..j - 1];
    }
  }

  lemma CountedGenerations(s: State, i: nat, j: nat)
    requires CountsOk(s) && i < j < |s.log| && s.log[i].Published? && s.log[j].Published?
    ensures s.log[i].event.generation < s.log[j].event.generation
  {
    MovesGrow(s.log, i + 1, j);
    assert s.log[..j + 1][..j] == s.log[..j];
  }

  /** Published generations strictly increase, whatever overrides fall between them. */
  lemma GenerationsIncrease(allowed: set<string>, readOnly: bool, schedule: seq<Label>, i: nat, j: nat)
    requires var log := Reach(allowed, readOnly, schedule).log; i < j < |log| && log[i].Published? && log[j].Published?
    ensures var log := Reach(allowed, readOnly, schedule).log; log[i].event.generation < log[j].event.generation
  {
    AlwaysInv(allowed, readOnly, schedule);
    CountedGenerations(Reach(allowed, readOnly, schedule), i, j);
  }

  lemma {:induction false} WindowSpent(log: seq<Entry>, i: nat, k: nat)
    requires i <= k <= |log| && forall m | i <= m < k :: !log[m].Forgotten?
    ensures Publications(log[i..k]) <= Spent(log[..k])
  {
    if i < k {
      WindowSpent(log, i, k - 1);
      assert log[i..k][..k - 1 - i] == log[i..k - 1];
      assert log[..k][..k - 1] == log[..k - 1];
    }
  }

  /** No stretch of a run in which the task is not forgotten applies more than four changes. */
  lemma FourChanges(allowed: set<string>, readOnly: bool, schedule: seq<Label>, i: nat, k: nat)
    requires var log := Reach(allowed, readOnly, schedule).log;
             i <= k <= |log| && forall m | i <= m < k :: !log[m].Forgotten?
    ensures Publications(Reach(allowed, readOnly, schedule).log[i..k]) <= MAX_CHANGES
  {
    AlwaysInv(allowed, readOnly, schedule);
    WindowSpent(Reach(allowed, readOnly, schedule).log, i, k);
  }

  function Forgets(log: seq<Entry>): nat {
    if log == [] then 0 else Forgets(log[..|log| - 1]) + (if log[|log| - 1].Forgotten? then 1 else 0)
  }

  lemma {:induction false} SpentPerForget(log: seq<Entry>)
    requires forall k | 0 <= k <= |log| :: Spent(log[..k]) <= MAX_CHANGES
    ensures Publications(log) <= MAX_CHANGES * Forgets(log) + Spent(log)
  {
    if log != [] {
      var n := |log| - 1;
      forall k | 0 <= k <= n
        ensures Spent(log[..n][..k]) <= MAX_CHANGES
      {
        assert log[..n][..k] == log[..k];
      }
      SpentPerForget(log[..n]);
      assert Spent(log[..n]) <= MAX_CHANGES;
    }
  }

  /** Over a whole run, four changes for each time a task was taken up. */
  lemma BudgetPerForget(allowed: set<string>, readOnly: bool, schedule: seq<Label>)
    ensures var log := Reach(allowed, readOnly, schedule).log;
            Publications(log) <= MAX_CHANGES * (Forgets(log) + 1)
  {
    AlwaysInv(allowed, readOnly, schedule);
    var log := Reach(allowed, readOnly, schedule).log;
    SpentPerForget(log);
    assert log[..|log|] == log;
  }

  /** A pending change still has budget: fewer than four have been applied since the task was last forgotten. */
  lemma PendingHasBudget(allowed: set<string>, readOnly: bool, schedule: seq<Label>)
    requires Reach(allowed, readOnly, schedule).turn.pending.Some?
    ensures Spent(Reach(allowed, readOnly, schedule).log) < MAX_CHANGES
  {
    AlwaysInv(allowed, readOnly, schedule);
  }

  /** From acceptance to the boundary that settles it, no root call reaches the inner source. */
  lemma RootDeferred(allowed: set<string>, readOnly: bool, schedule: seq<Label>, j: nat, k: nat)
    requires var log := Reach(allowed, readOnly, schedule).log;
             j < k < |log| && log[j].Took? && log[k].Reached? && log[k].owner.Root?
    ensures exists b :: j < b < k && Boundary(Reach(allowed, readOnly, schedule).log[b])
  {
    AlwaysInv(allowed, readOnly, schedule);
    assert Deferred(Reach(allowed, readOnly, schedule).log, j, k);
  }

  /** A switch to Plan is published only over a workspace at rest: no call, no child, no background process. */
  lemma PlanNeedsRest(allowed: set<string>, readOnly: bool, schedule: seq<Label>)
    requires var s := Reach(allowed, readOnly, schedule);
             var a := Publish(s.live, s.turn, s.procs != {});
             s.phase == Publishing && a.event.Some? && a.event.value.plan
    ensures var s := Reach(allowed, readOnly, schedule); s.calls == map[] && s.children == {} && s.procs == {}
  {
    AlwaysInv(allowed, readOnly, schedule);
    var s := Reach(allowed, readOnly, schedule);
    assert forall k | k in s.calls :: false;
  }

  /** ... and it stays at rest: until the next mode change, nothing outside the Plan surface runs. */
  lemma PlanStaysQuiet(allowed: set<string>, readOnly: bool, schedule: seq<Label>)
    requires BASH !in allowed
    requires PlanPublished(Reach(allowed, readOnly, schedule).log)
    ensures var s := Reach(allowed, readOnly, schedule);
            && s.procs == {}
            && (forall k | k in s.calls && s.calls[k].running :: s.calls[k].tool in allowed)
            && (forall k | 0 <= k < |s.log| && s.log[k].Reached? && PlanPublished(s.log[..k]) ::
                  s.log[k].tool in allowed)
  {
    AlwaysInv(allowed, readOnly, schedule);
  }

  /** With the inspect-only ceiling no request or override ever lets a call outside the Plan surface through. */
  lemma CeilingHolds(allowed: set<string>, schedule: seq<Label>, k: nat)
    requires var log := Reach(allowed, true, schedule).log; k < |log| && log[k].Reached?
    ensures var s := Reach(allowed, true, schedule); s.live.plan && s.log[k].tool in allowed
  {
    AlwaysInv(allowed, true, schedule);
  }

  function RunBoundary(s: State, id: string): State {
    Step(Step(Step(s, BeginApply(id)), Settle), FinishApply)
  }

  /** What a boundary makes of a pending change: it is applied exactly when no override superseded it and, for Plan,
  nothing runs in the background; otherwise the mode is untouched. */
  ghost predicate Decided(s: State, s': State, id: string)
    requires s.turn.pending.Some?
  {
    var p := s.turn.pending.value;
    if p.generation == s.live.generation && (p.plan ==> s.procs == {}) then
      && s'.live.plan == p.plan != s.live.plan
      && s'.log == s.log + [Published(ModeChanged(id, p.plan, p.reason, s.live.generation + 1))]
    else s'.live == s.live
  }

  lemma BoundaryDecides(allowed: set<string>, readOnly: bool, schedule: seq<Label>, id: string)
    requires var s := Reach(allowed, readOnly, schedule);
             s.phase == Dispatching && s.turn.pending.Some? && s.children == {}
    ensures var s := Reach(allowed, readOnly, schedule); Decided(s, RunBoundary(s, id), id)
  {
    AlwaysInv(allowed, readOnly, schedule);
    PendingDecided(Reach(allowed, readOnly, schedule), id);
  }

  lemma PendingDecided(s: State, id: string)
    requires CallsOk(s) && PendingOk(s) && s.phase == Dispatching && s.turn.pending.Some? && s.children == {}
    ensures Decided(s, RunBoundary(s, id), id)
  {
    PendingFlips(s);
    BoundaryOutcome(s, id);
  }

  /** A pending change that nothing superseded asks for the other mode, and keeps root calls out. */
  lemma PendingFlips(s: State)
    requires CallsOk(s) && PendingOk(s) && s.turn.pending.Some?
    ensures NoRootCall(s)
    ensures s.turn.pending.value.generation == s.live.generation ==> s.turn.pending.value.plan != s.live.plan
  {
  }

  lemma BoundaryOutcome(s: State, id: string)
    requires s.phase == Dispatching && NoRootCall(s) && s.children == {} && s.turn.pending.Some?
    ensures var p := s.turn.pending.value;
            var s' := RunBoundary(s, id);
            if p.generation == s.live.generation && (p.plan ==> s.procs == {}) then
              && s'.live.plan == p.plan
              && s'.log == s.log + [Published(ModeChanged(id, p.plan, p.reason, s.live.generation + 1))]
            else s'.live == s.live
  {
  }

  // ---------------------------------------------------------------- the budget is per forgotten stretch

  /** The tools PLAN mode may dispatch. */
  const PLAN_ALLOWED: set<string> := {
    "read", "grep", "ls", "glob", "file_map", "retrieve_code", "save_plan", "save_plan_append", "update_plan",
    "web_search", "web_fetch", "skill_load", "list_skills", "list_agents", "list_instructions", "instruction_load",
    "program", "program_output_read", "computer_observe", "mcp_list", "bash_output", "list_processes",
    "agent_spawn", "agent_status", "agent_await", "agent_stop", "set_mode", "list_agent_tasks",
    "board_post", "board_list", "board_read"}

  /** The real Plan surface meets the one assumption of the theorems above. */
  lemma PlanSurface()
    ensures BASH !in PLAN_ALLOWED && SET_MODE in PLAN_ALLOWED && AGENT_SPAWN in PLAN_ALLOWED
  {
    assert |BASH| == 4;
    assert "bash"[0] == 'b' && "read"[0] == 'r' && "grep"[0] == 'g' && "glob"[0] == 'g';
  }

  function PublicationsBy(log: seq<Entry>, id: string): nat {
    if log == [] then 0
    else
      var e := log[|log| - 1];
      PublicationsBy(log[..|log| - 1], id) + (if e.Published? && e.event.taskID == id then 1 else 0)
  }

  const TASK := "t"

  /** The task asks for the other mode. */
  function Ask(s: State): Label {
    SetMode(Caller(0, TASK, false), Args(if s.live.plan then "build" else "plan", "go"))
  }

  predicate Ready(s: State) {
    && s.phase == Dispatching && s.calls == map[] && s.children == {} && s.procs == {}
    && !s.live.readOnly && s.turn.taskID == TASK && s.turn.pending.None? && s.turn.generation == s.live.generation
  }

  /** A label and a boundary after it. */
  function ThenBoundary(l: Label): seq<Label> {
    [l, BeginApply(TASK), Settle, FinishApply]
  }

  lemma RunsBoundary(s: State, l: Label)
    ensures Exec(s, ThenBoundary(l)) == RunBoundary(Step(s, l), TASK)
  {
    var ls := ThenBoundary(l);
    assert ls[..3][..2] == ls[..2] && ls[..2][..1] == ls[..1] && ls[..1][..0] == [];
    assert Exec(s, ls[..1]) == Step(s, l);
    assert Exec(s, ls[..2]) == Step(Step(s, l), BeginApply(TASK));
    assert Exec(s, ls[..3]) == Step(Step(Step(s, l), BeginApply(TASK)), Settle);
  }

  lemma ShortReason()
    ensures ByteLength("go") == 2 && !Blank("go")
  {
    assert "go"[..1] == "g" && "g"[..0] == "";
    assert ByteLength("g") == 1;
    assert !IsSpace("go"[0]);
  }

  /** A ready task with budget left gets its request accepted. */
  lemma AskAccepted(s: State) returns (p: Pending)
    requires Ready(s) && s.turn.changes < MAX_CHANGES
    ensures p == Pending(!s.live.plan, "go", s.live.generation)
    ensures Step(s, Ask(s)) == s.(turn := s.turn.(pending := Some(p)), log := s.log + [Took(p)])
  {
    ShortReason();
    assert NoRootCall(s);
    p := Pending(!s.live.plan, "go", s.live.generation);
  }

  /** A boundary publishes an accepted request. */
  lemma AskPublished(s: State, p: Pending, s1: State) returns (e: Event)
    requires Ready(s) && p == Pending(!s.live.plan, "go", s.live.generation)
    requires s1 == s.(turn := s.turn.(pending := Some(p)), log := s.log + [Took(p)])
    ensures var s' := RunBoundary(s1, TASK);
            && Ready(s') && s'.turn.changes == s.turn.changes + 1
            && e.taskID == TASK && s'.log == s1.log + [Published(e)]
  {
    e := ModeChanged(TASK, p.plan, p.reason, s.live.generation + 1);
    BoundaryOutcome(s1, TASK);
  }

  /** How many changes the task applied and how many forgets there were between two states. */
  predicate Ran(s: State, s': State, changes: nat, forgets: nat) {
    && PublicationsBy(s'.log, TASK) == PublicationsBy(s.log, TASK) + changes
    && Forgets(s'.log) == Forgets(s.log) + forgets
  }

  lemma TallyNext(log: seq<Entry>, e: Entry)
    ensures PublicationsBy(log + [e], TASK)
         == PublicationsBy(log, TASK) + (if e.Published? && e.event.taskID == TASK then 1 else 0)
    ensures Forgets(log + [e]) == Forgets(log) + (if e.Forgotten? then 1 else 0)
  {
    assert (log + [e])[..|log|] == log;
  }

  /** One full change of mode by the task: ask for the other mode, then cross a boundary. */
  lemma Change(s: State) returns (s': State)
    requires Ready(s) && s.turn.changes < MAX_CHANGES
    ensures s' == Exec(s, ThenBoundary(Ask(s)))
    ensures Ready(s') && s'.turn.changes == s.turn.changes + 1 && Ran(s, s', 1, 0)
  {
    RunsBoundary(s, Ask(s));
    var p := AskAccepted(s);
    var s1 := Step(s, Ask(s));
    var e := AskPublished(s, p, s1);
    s' := RunBoundary(s1, TASK);
    TallyNext(s.log, Took(p));
    TallyNext(s1.log, Published(e));
  }

  lemma {:induction false} ExecAppend(s: State, a: seq<Label>, b: seq<Label>)
    ensures Exec(s, a + b) == Exec(Exec(s, a), b)
  {
    if b == [] {
      assert a + b == a;
    } else {
      var n := |b| - 1;
      assert (a + b)[..|a| + n] == a + b[..n];
      ExecAppend(s, a, b[..n]);
    }
  }

  /** Labels for `n` changes in a row. */
  lemma {:induction false} Changes(s: State, n: nat) returns (ls: seq<Label>)
    requires Ready(s) && s.turn.changes + n <= MAX_CHANGES
    ensures var s' := Exec(s, ls);
            && Ready(s') && s'.turn.changes == s.turn.changes + n
            && Ran(s, s', n, 0)
    decreases n
  {
    if n == 0 {
      ls := [];
    } else {
      var s1 := Change(s);
      var rest := Changes(s1, n - 1);
      ExecAppend(s, ThenBoundary(Ask(s)), rest);
      ls := ThenBoundary(Ask(s)) + rest;
    }
  }

  predicate Resting(s: State) {
    && s.phase == Dispatching && s.calls == map[] && s.children == {} && s.procs == {}
    && !s.live.readOnly && s.turn.pending.None?
  }

  /** A boundary with nothing pending adopts the task and the current generation. */
  lemma FirstBoundary(s: State)
    requires Resting(s)
    ensures var s' := RunBoundary(s, TASK);
            Ready(s') && s'.turn.changes == s.turn.changes && s'.log == s.log + [Dropped]
  {
    var s1 := Step(s, BeginApply(TASK));
    assert s1.phase == Publishing && Step(s1, Settle) == s1;
  }

  lemma ForgetRests(s: State)
    requires Resting(s) && (s.turn == Turn("", 0, 0, None) || s.turn.taskID == TASK)
    ensures var s1 := ForgetStep(s, TASK);
            Resting(s1) && s1.turn.changes == 0 && Ran(s, s1, 0, if s.turn.taskID == TASK then 1 else 0)
  {
    TallyNext(s.log, Forgotten);
  }

  /** Entering the task: forget whatever it did before, then cross a first boundary. */
  lemma Enter(s: State) returns (s': State)
    requires Resting(s) && (s.turn == Turn("", 0, 0, None) || s.turn.taskID == TASK)
    ensures s' == Exec(s, ThenBoundary(ForgetTask(TASK)))
    ensures Ready(s') && s'.turn.changes == 0 && Ran(s, s', 0, if s.turn.taskID == TASK then 1 else 0)
  {
    RunsBoundary(s, ForgetTask(TASK));
    var s1 := ForgetStep(s, TASK);
    ForgetRests(s);
    FirstBoundary(s1);
    TallyNext(s1.log, Dropped);
    s' := RunBoundary(s1, TASK);
  }

  /** Entering the task and changing the mode `n` times. */
  lemma EnterAndChange(s: State, n: nat) returns (ls: seq<Label>)
    requires Resting(s) && (s.turn == Turn("", 0, 0, None) || s.turn.taskID == TASK) && n <= MAX_CHANGES
    ensures var s' := Exec(s, ls);
            Ready(s') && Ran(s, s', n, if s.turn.taskID == TASK then 1 else 0)
  {
    var s1 := Enter(s);
    var rest := Changes(s1, n);
    ExecAppend(s, ThenBoundary(ForgetTask(TASK)), rest);
    ls := ThenBoundary(ForgetTask(TASK)) + rest;
  }

  /** A run in which the task is forgotten `f` times, with a full budget of changes before each forget and `n` changes
  after the last. */
  lemma {:induction false} FullRun(f: nat, n: nat) returns (ls: seq<Label>)
    requires n <= MAX_CHANGES
    ensures var s := Reach(PLAN_ALLOWED, false, ls);
            Ready(s) && PublicationsBy(s.log, TASK) == MAX_CHANGES * f + n && Forgets(s.log) == f
    decreases f
  {
    var s0 := Init(PLAN_ALLOWED, false);
    if f == 0 {
      ls := EnterAndChange(s0, n);
    } else {
      var before := FullRun(f - 1, MAX_CHANGES);
      var rest := EnterAndChange(Exec(s0, before), n);
      ExecAppend(s0, before, rest);
      ls := before + rest;
    }
  }

  /** The bound of `BudgetPerForget` is reached, whatever the number of forgets. */
  lemma BudgetIsTight(f: nat)
    ensures exists schedule ::
              var log := Reach(PLAN_ALLOWED, false, schedule).log;
              Forgets(log) == f && PublicationsBy(log, TASK) == MAX_CHANGES * (f + 1)
  {
    var schedule := FullRun(f, MAX_CHANGES);
    assert Forgets(Reach(PLAN_ALLOWED, false, schedule).log) == f;
  }

  /** The budget is not per task identity: a task that is forgotten and driven again under the same id applies a
  fifth change. */
  lemma ReDrivenTaskExceedsFour()
    ensures exists schedule :: PublicationsBy(Reach(PLAN_ALLOWED, false, schedule).log, TASK) == 5
  {
    var schedule := FullRun(1, 1);
    assert PublicationsBy(Reach(PLAN_ALLOWED, false, schedule).log, TASK) == 5;
  }
}
