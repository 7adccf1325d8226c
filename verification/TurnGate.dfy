/** Serialised conversation turns.

A one-slot gate serialises everything that touches the conversation context: interactive turns, headless turns,
restores, checkpoints and compactions. Interactive turns register with the runner's lifecycle after they hold the gate,
headless turns before. `Step` interleaves any number of such operations; the results say that every run is equivalent
to the sequential history in `log`. */
module TurnGate {
  import opened Base
  import opened Sums

  type Context = seq<string>

  // ---------------------------------------------------------------- sequential meaning

  /** The cached conversation; `exact` keeps a checkpoint verbatim instead of repairing it. */
  datatype Cache = Cache(context: Context, exact: bool)

  /** How a turn ended: its set-up failed, its body panicked, or it returned messages (possibly none). */
  datatype Outcome = SetupFailed | Panicked | Returned(messages: Context)

  /** How a compaction ended. */
  datatype Compaction = CompactFailed | Compacted(history: Context)

  datatype Effect =
    | Turned(outcome: Outcome)
    | Restored(context: Context)
    | Checkpointed(context: Context)
    | Compact(result: Compaction)

  type Repair = Context -> Context

  /** The context a turn starts from. */
  function Seed(repair: Repair, c: Cache): Context {
    if c.exact then c.context else repair(c.context)
  }

  /** What an operation does to the cache when nothing runs beside it. */
  function Apply(repair: Repair, c: Cache, e: Effect): Cache {
    match e
    case Turned(outcome) =>
      (match outcome
       case SetupFailed => c
       case Panicked => c.(context := Seed(repair, c))
       case Returned(messages) => c.(context := if |messages| > 0 then messages else Seed(repair, c)))
    case Restored(context) => Cache(repair(context), false)
    case Checkpointed(context) => Cache(context, true)
    case Compact(result) =>
      if c.context == [] then c
      else if result.Compacted? && |result.history| > 0 then c.(context := result.history)
      else c.(context := Seed(repair, c))
  }

  // ---------------------------------------------------------------- the objects

  class ContextGate {
    var held: bool

    constructor ()
      ensures !held
    {
      held := false;
    }

    /** Sends into the slot. While somebody else holds it the caller waits: `released` says whether the slot comes
    free before the caller's context is done. A caller that is let in with a cancelled context hands the slot straight
    back. */
    method Acquire(cancelled: bool, released: bool) returns (ok: bool)
      modifies this
      ensures ok == ((!old(held) || released) && !cancelled)
      ensures held == (ok || (old(held) && !released))
    {
      if held {
        if !released { return false; }
        Unlock();
      }
      held := true;
      if cancelled {
        Unlock();
        return false;
      }
      ok := true;
    }

    method Unlock()
      requires held
      modifies this
      ensures !held
    {
      held := false;
    }
  }

  /** The cache a caller finds inside the gate: what the holder it had to wait for left, otherwise what is there. */
  function Found(held: bool, now: Cache, left: Option<Cache>): Cache {
    if held && left.Some? then left.value else now
  }

  /** Whether a caller gets in, to stay. */
  predicate GetsIn(held: bool, left: Option<Cache>, cancelled: bool) {
    (!held || left.Some?) && !cancelled
  }

  class ContextCache {
    const mu: ContextGate
    var context: Context
    var exact: bool

    constructor ()
      ensures Value() == Cache([], false) && fresh(mu) && !mu.held
    {
      mu := new ContextGate();
      context := [];
      exact := false;
    }

    ghost function Value(): Cache
      reads this
    {
      Cache(context, exact)
    }

    /** Waits for the gate. When it is held, `left` is the cache its holder leaves, or `None` if the caller's context is
    done before the gate is released. */
    method Enter(cancelled: bool, left: Option<Cache>) returns (ok: bool)
      modifies this, mu
      ensures ok == GetsIn(old(mu.held), left, cancelled)
      ensures mu.held == (ok || (old(mu.held) && left.None?))
      ensures Value() == Found(old(mu.held), old(Value()), left)
    {
      if mu.held && left.Some? {
        context, exact := left.value.context, left.value.exact;
      }
      ok := mu.Acquire(cancelled, left.Some?);
    }

    /** One whole turn: the caller either gives up without a trace or commits its effect on what it found, and leaves
    the gate as free as it was. */
    method Transition(repair: Repair, cancelled: bool, left: Option<Cache>, outcome: Outcome)
      returns (seed: Option<Context>)
      modifies this, mu
      ensures mu.held == (old(mu.held) && left.None?)
      ensures var found := Found(old(mu.held), old(Value()), left);
              if GetsIn(old(mu.held), left, cancelled)
              then seed == Some(Seed(repair, found)) && Value() == Apply(repair, found, Turned(outcome))
              else seed.None? && Value() == found
    {
      var ok := Enter(cancelled, left);
      if !ok { return None; }
      var repaired := context;
      if !exact {
        repaired := repair(context);
      }
      seed := Some(repaired);
      if outcome.SetupFailed? {
        mu.Unlock();
        return;
      }
      context := repaired;
      if outcome.Returned? && |outcome.messages| > 0 {
        context := outcome.messages;
      }
      mu.Unlock();
    }

    /** Returns only once the gate was free: a restore cannot be cancelled. */
    method Restore(repair: Repair, saved: Context, left: Option<Cache>) returns (returned: bool)
      modifies this, mu
      ensures returned == (!old(mu.held) || left.Some?) && mu.held == !returned
      ensures var found := Found(old(mu.held), old(Value()), left);
              Value() == if returned then Apply(repair, found, Restored(saved)) else found
    {
      returned := Enter(false, left);
      if !returned { return; }
      context := repair(saved);
      exact := false;
      mu.Unlock();
    }

    /** A checkpoint that cannot be read changes nothing and does not wait. */
    method RestoreCheckpoint(repair: Repair, snapshot: Option<Context>, left: Option<Cache>)
      returns (returned: bool, ok: bool)
      modifies this, mu
      ensures ok ==> returned && snapshot.Some?
      ensures snapshot.None? ==> returned && !ok && mu.held == old(mu.held) && Value() == old(Value())
      ensures snapshot.Some? ==>
                && ok == returned == (!old(mu.held) || left.Some?) && mu.held == !returned
                && var found := Found(old(mu.held), old(Value()), left);
                   Value() == if returned then Apply(repair, found, Checkpointed(snapshot.value)) else found
    {
      if snapshot.None? { return true, false; }
      returned := Enter(false, left);
      ok := returned;
      if !returned { return; }
      context := snapshot.value;
      exact := true;
      mu.Unlock();
    }

    method CompactNow(repair: Repair, cancelled: bool, left: Option<Cache>, result: Compaction)
      modifies this, mu
      ensures mu.held == (old(mu.held) && left.None?)
      ensures var found := Found(old(mu.held), old(Value()), left);
              Value() == if GetsIn(old(mu.held), left, cancelled) then Apply(repair, found, Compact(result)) else found
    {
      var ok := Enter(cancelled, left);
      if !ok { return; }
      if |context| == 0 {
        mu.Unlock();
        return;
      }
      var repaired := context;
      if !exact {
        repaired := repair(context);
      }
      context := repaired;
      if result.Compacted? && |result.history| > 0 {
        context := result.history;
      }
      mu.Unlock();
    }
  }

  /** A failed compaction still stores the repaired context, so it leaves the cache unchanged exactly when there was
  nothing to repair. */
  lemma FailedCompaction(repair: Repair, c: Cache)
    ensures Apply(repair, c, Compact(CompactFailed)) == c <==>
            c.context == [] || c.exact || repair(c.context) == c.context
  {
  }

  datatype Begin = Begun | Closed | Busy

  /** The slice of the runner's lifecycle a turn registers with. Turns are named by their done channel. */
  class Lifecycle {
    var closing: bool
    var turnDone: Option<nat>

    constructor ()
      ensures !closing && turnDone.None?
    {
      closing := false;
      turnDone := None;
    }

    method BeginTurn(done: nat) returns (r: Begin)
      modifies this
      ensures closing == old(closing)
      ensures (r, turnDone) == Admit(old(closing), old(turnDone), done)
    {
      if closing { return Closed; }
      if turnDone.Some? { return Busy; }
      turnDone := Some(done);
      r := Begun;
    }

    /** Guarded by a once: a repeated finish is not called, and a foreign turn is left alone. */
    method Finish(done: nat)
      modifies this
      ensures closing == old(closing) && turnDone == Cleared(old(turnDone), done)
    {
      if turnDone == Some(done) {
        turnDone := None;
      }
    }
  }

  /** Registering a turn: refused when closing or when another is registered. */
  function Admit(closing: bool, turn: Option<nat>, done: nat): (Begin, Option<nat>) {
    if closing then (Closed, turn) else if turn.Some? then (Busy, turn) else (Begun, Some(done))
  }

  function Cleared(turn: Option<nat>, done: nat): Option<nat> {
    if turn == Some(done) then None else turn
  }

  // ---------------------------------------------------------------- interleavings

  datatype Kind = Interactive | Headless | Restoring(saved: Context) | Rewinding(saved: Context) | Compacting
  {
    predicate Cancellable() { Interactive? || Headless? || Compacting? }
  }

  datatype Result = Ok | GaveUp | WasBusy | WasClosed | Failed

  /** Where an operation stands. `Held` to `Leaving` hold the gate. */
  datatype Pc =
    | Arriving
    | Queued
    | Held
    | Prepared(seed: Context)
    | Running(seed: Context)
    | Ending(result: Result)
    | Leaving(result: Result)
    | Outside(result: Result)
    | Done(result: Result)
  {
    predicate Holds() { Held? || Prepared? || Running? || Ending? || Leaving? }
  }

  datatype Op = Op(kind: Kind, pc: Pc, cancelled: bool, finished: bool)

  /** A committed operation, with the context it observed. */
  datatype Commit = Commit(id: nat, seed: Context, effect: Effect)

  datatype State = State(
    gate: Option<nat>,
    cache: Cache,
    closing: bool,
    turn: Option<nat>,
    ops: map<nat, Op>,
    log: seq<Commit>)

  datatype Label =
    | Arrive(id: nat, kind: Kind)
    | Cancel(id: nat)
    | Close
    | Register(id: nat)
    | Acquire(id: nat)
    | GiveUp(id: nat)
    | CheckContext(id: nat)
    | SetUp(id: nat, ok: bool)
    | Finalize(id: nat, outcome: Outcome)
    | Replace(id: nat, result: Compaction)
    | Finish(id: nat)
    | Unlock(id: nat)

  function Init(): State {
    State(None, Cache([], false), false, None, map[], [])
  }

  function At(s: State, id: nat, pc: Pc): State
    requires id in s.ops
  {
    s.(ops := s.ops[id := s.ops[id].(pc := pc)])
  }

  /** The body of an operation that only replaces the context. */
  function Replacement(kind: Kind, result: Compaction): Effect
    requires !kind.Interactive? && !kind.Headless?
  {
    match kind
    case Restoring(saved) => Restored(saved)
    case Rewinding(saved) => Checkpointed(saved)
    case Compacting => Compact(result)
  }

  /** A headless turn registers before it queues; everybody else only queues. */
  function RegisterStep(s: State, id: nat): State
    requires id in s.ops
  {
    if !s.ops[id].pc.Arriving? then s
    else if !s.ops[id].kind.Headless? then At(s, id, Queued)
    else
      var (begin, turn) := Admit(s.closing, s.turn, id);
      var pc := match begin case Closed => Done(WasClosed) case Busy => Done(WasBusy) case Begun => Queued;
      At(s, id, pc).(turn := turn)
  }

  function Abandoned(kind: Kind): Pc {
    if kind.Headless? then Outside(GaveUp) else Done(GaveUp)
  }

  /** The gate's slot was free: the send succeeds. */
  function AcquireStep(s: State, id: nat): State
    requires id in s.ops
  {
    if s.ops[id].pc.Queued? && s.gate.None? then At(s, id, Held).(gate := Some(id)) else s
  }

  /** Inside the gate: hand the slot back if the context is done, otherwise look at the cache. */
  function CheckStep(repair: Repair, s: State, id: nat): State
    requires id in s.ops
  {
    if !s.ops[id].pc.Held? then s
    else if s.ops[id].cancelled then At(s, id, Abandoned(s.ops[id].kind)).(gate := None)
    else At(s, id, Prepared(Seed(repair, s.cache)))
  }

  /** A turn's set-up; an interactive turn registers here. Success stores the seed. */
  function SetUpStep(s: State, id: nat, ok: bool): State
    requires id in s.ops
  {
    var me := s.ops[id];
    if !me.pc.Prepared? || !(me.kind.Interactive? || me.kind.Headless?) then s
    else
      var (begin, turn) := if me.kind.Headless? then (Begun, s.turn) else Admit(s.closing, s.turn, id);
      match begin
      case Closed => At(s, id, Ending(WasClosed))
      case Busy => At(s, id, Ending(WasBusy))
      case Begun =>
        var s' := s.(turn := turn);
        if ok || me.kind.Headless? then At(s', id, Running(me.pc.seed)).(cache := s.cache.(context := me.pc.seed))
        else At(s', id, Ending(Failed))
  }

  /** A turn's body ended: keep its messages, or the seed if there are none. */
  function FinalizeStep(s: State, id: nat, outcome: Outcome): State
    requires id in s.ops
  {
    var me := s.ops[id];
    if !me.pc.Running? || outcome.SetupFailed? then s
    else
      At(s, id, Ending(Ok)).(
        cache := if outcome.Returned? && |outcome.messages| > 0 then s.cache.(context := outcome.messages) else s.cache,
        log := s.log + [Commit(id, me.pc.seed, Turned(outcome))])
  }

  function ReplaceStep(repair: Repair, s: State, id: nat, result: Compaction): State
    requires id in s.ops
  {
    var me := s.ops[id];
    if !me.pc.Prepared? || me.kind.Interactive? || me.kind.Headless? then s
    else
      var e := Replacement(me.kind, result);
      At(s, id, Leaving(Ok)).(cache := Apply(repair, s.cache, e), log := s.log + [Commit(id, me.pc.seed, e)])
  }

  /** The lifecycle's finish, once per turn: inside the gate, and again on a headless turn's way out. */
  function FinishStep(s: State, id: nat): State
    requires id in s.ops
  {
    var me := s.ops[id];
    if me.pc.Ending? || me.pc.Outside? then
      s.(ops := s.ops[id := me.(finished := true,
                                pc := if me.pc.Ending? then Leaving(me.pc.result) else Done(me.pc.result))],
         turn := if me.finished then s.turn else Cleared(s.turn, id))
    else s
  }

  function UnlockStep(s: State, id: nat): State
    requires id in s.ops
  {
    var me := s.ops[id];
    if me.pc.Leaving?
    then At(s, id, if me.kind.Headless? then Outside(me.pc.result) else Done(me.pc.result)).(gate := None) else s
  }

  /** Closing is one-way and cancels the registered turn. */
  function CloseStep(s: State): State {
    var s' := s.(closing := true);
    if s.turn.Some? && s.turn.value in s.ops
    then s'.(ops := s.ops[s.turn.value := s.ops[s.turn.value].(cancelled := true)]) else s'
  }

  /** One step of a schedule; a label that is not enabled leaves the state alone. */
  function Step(repair: Repair, s: State, l: Label): State {
    match l
    case Arrive(id, kind) => if id in s.ops then s else s.(ops := s.ops[id := Op(kind, Arriving, false, false)])
    case Close => CloseStep(s)
    case Cancel(id) =>
      if id in s.ops && s.ops[id].kind.Cancellable() then s.(ops := s.ops[id := s.ops[id].(cancelled := true)]) else s
    case Register(id) => if id in s.ops then RegisterStep(s, id) else s
    case Acquire(id) => if id in s.ops then AcquireStep(s, id) else s
    case GiveUp(id) =>
      if id in s.ops && s.ops[id].pc.Queued? && s.ops[id].cancelled then At(s, id, Abandoned(s.ops[id].kind)) else s
    case CheckContext(id) => if id in s.ops then CheckStep(repair, s, id) else s
    case SetUp(id, ok) => if id in s.ops then SetUpStep(s, id, ok) else s
    case Finalize(id, outcome) => if id in s.ops then FinalizeStep(s, id, outcome) else s
    case Replace(id, result) => if id in s.ops then ReplaceStep(repair, s, id, result) else s
    case Finish(id) => if id in s.ops then FinishStep(s, id) else s
    case Unlock(id) => if id in s.ops then UnlockStep(s, id) else s
  }

  function Exec(repair: Repair, s: State, schedule: seq<Label>): State {
    if schedule == [] then s else Step(repair, Exec(repair, s, schedule[..|schedule| - 1]), schedule[|schedule| - 1])
  }

  /** The sequential history: the commits applied one after the other. */
  function Replay(repair: Repair, log: seq<Commit>): Cache {
    if log == [] then Cache([], false)
    else Apply(repair, Replay(repair, log[..|log| - 1]), log[|log| - 1].effect)
  }

  // ---------------------------------------------------------------- the invariant

  /** The gate's slot is taken exactly by the operation that stands inside it. */
  ghost predicate GateOk(s: State) {
    && (s.gate.Some? ==> s.gate.value in s.ops)
    && (forall id | id in s.ops :: s.ops[id].pc.Holds() <==> s.gate == Some(id))
    && (forall id | id in s.ops && s.ops[id].finished ::
          s.ops[id].pc.Leaving? || s.ops[id].pc.Outside? || s.ops[id].pc.Done?)
  }

  /** An interactive turn is registered only while it holds the gate. */
  ghost predicate TurnOk(s: State) {
    s.turn.Some? ==>
      && s.turn.value in s.ops
      && var op := s.ops[s.turn.value];
         && !op.finished
         && (op.kind.Interactive? || op.kind.Headless?)
         && (op.kind.Interactive? ==> op.pc.Running? || op.pc.Ending?)
         && !op.pc.Arriving? && !op.pc.Leaving? && !op.pc.Done?
  }

  /** Where the holder of the gate stands, `Arriving` when the gate is free. */
  function Holder(s: State): Pc {
    if s.gate.Some? && s.gate.value in s.ops then s.ops[s.gate.value].pc else Arriving
  }

  /** What the cache holds now, given the history: while a turn runs, its seed is already stored. */
  ghost predicate CacheOk(repair: Repair, cache: Cache, holder: Pc, done: Cache) {
    if holder.Running? then cache.exact == done.exact && cache.context == holder.seed == Seed(repair, done)
    else cache == done && (holder.Prepared? ==> holder.seed == Seed(repair, done))
  }

  predicate Committed(op: Op) {
    (op.pc.Ending? || op.pc.Leaving? || op.pc.Outside? || op.pc.Done?) && op.pc.result == Ok
  }

  ghost predicate InLog(s: State, id: nat) {
    exists k :: 0 <= k < |s.log| && s.log[k].id == id
  }

  ghost predicate LogOk(repair: Repair, s: State) {
    && (forall k | 0 <= k < |s.log| :: s.log[k].seed == Seed(repair, Replay(repair, s.log[..k])))
    && (forall k | 0 <= k < |s.log| :: s.log[k].id in s.ops && Committed(s.ops[s.log[k].id]))
    && (forall j, k | 0 <= j < k < |s.log| :: s.log[j].id != s.log[k].id)
    && (forall id | id in s.ops && Committed(s.ops[id]) :: InLog(s, id))
  }

  ghost predicate Inv(repair: Repair, s: State) {
    GateOk(s) && TurnOk(s) && CacheOk(repair, s.cache, Holder(s), Replay(repair, s.log)) && LogOk(repair, s)
  }

  // ---------------------------------------------------------------- every step keeps it

  /** Moving an operation outside the gate. */
  lemma MovesOutside(s: State, id: nat, pc: Pc)
    requires GateOk(s) && id in s.ops && !s.ops[id].finished && !s.ops[id].pc.Holds() && !pc.Holds()
    ensures GateOk(At(s, id, pc))
  {
  }

  lemma RegisterGate(s: State, id: nat)
    requires GateOk(s) && TurnOk(s) && id in s.ops
    ensures var s' := RegisterStep(s, id); GateOk(s') && TurnOk(s')
  {
    var s' := RegisterStep(s, id);
    if s.ops[id].pc.Arriving? {
      var moved := At(s, id, s'.ops[id].pc);
      MovesOutside(s, id, s'.ops[id].pc);
      assert GateOk(s') by { assert s' == moved.(turn := s'.turn); }
    }
  }

  lemma SetUpGate(s: State, id: nat, ok: bool)
    requires GateOk(s) && TurnOk(s) && id in s.ops
    ensures var s' := SetUpStep(s, id, ok); GateOk(s') && TurnOk(s')
  {
  }

  lemma FinishGate(s: State, id: nat)
    requires GateOk(s) && TurnOk(s) && id in s.ops
    ensures var s' := FinishStep(s, id); GateOk(s') && TurnOk(s')
  {
  }

  lemma AcquireGate(s: State, id: nat)
    requires GateOk(s) && TurnOk(s) && id in s.ops
    ensures var s' := AcquireStep(s, id); GateOk(s') && TurnOk(s')
  {
  }

  lemma CheckGate(repair: Repair, s: State, id: nat)
    requires GateOk(s) && TurnOk(s) && id in s.ops
    ensures var s' := CheckStep(repair, s, id); GateOk(s') && TurnOk(s')
  {
  }

  lemma UnlockGate(s: State, id: nat)
    requires GateOk(s) && TurnOk(s) && id in s.ops
    ensures var s' := UnlockStep(s, id); GateOk(s') && TurnOk(s')
  {
  }

  lemma BodyGate(repair: Repair, s: State, id: nat, outcome: Outcome, result: Compaction)
    requires GateOk(s) && TurnOk(s) && id in s.ops
    ensures var s' := FinalizeStep(s, id, outcome); GateOk(s') && TurnOk(s')
    ensures var s' := ReplaceStep(repair, s, id, result); GateOk(s') && TurnOk(s')
  {
  }

  lemma CloseGate(s: State)
    requires GateOk(s) && TurnOk(s)
    ensures var s' := CloseStep(s); GateOk(s') && TurnOk(s')
  {
  }

  /** A cancellation, a wait given up, and an arrival. */
  lemma WaitGate(repair: Repair, s: State, l: Label)
    requires GateOk(s) && TurnOk(s) && (l.Cancel? || l.GiveUp? || l.Arrive?)
    ensures var s' := Step(repair, s, l); GateOk(s') && TurnOk(s')
  {
  }

  lemma StepGate(repair: Repair, s: State, l: Label)
    requires GateOk(s) && TurnOk(s)
    ensures var s' := Step(repair, s, l); GateOk(s') && TurnOk(s')
  {
    if l.Close? {
      CloseGate(s);
    } else if l.Cancel? || l.GiveUp? || l.Arrive? {
      WaitGate(repair, s, l);
    } else if l.id in s.ops {
      match l
      case Register(id) => RegisterGate(s, id);
      case SetUp(id, ok) => SetUpGate(s, id, ok);
      case Finish(id) => FinishGate(s, id);
      case Finalize(id, outcome) => BodyGate(repair, s, id, outcome, CompactFailed);
      case Replace(id, result) => BodyGate(repair, s, id, Panicked, result);
      case Acquire(id) => AcquireGate(s, id);
      case CheckContext(id) => CheckGate(repair, s, id);
      case Unlock(id) => UnlockGate(s, id);
    }
  }

  /** Steps that commit: the end of a turn's body and the body of a replacement. */
  predicate Commits(s: State, l: Label) {
    || (l.Finalize? && l.id in s.ops && s.ops[l.id].pc.Running? && !l.outcome.SetupFailed?)
    || (l.Replace? && l.id in s.ops && s.ops[l.id].pc.Prepared?
        && !s.ops[l.id].kind.Interactive? && !s.ops[l.id].kind.Headless?)
  }

  function CommitOf(s: State, l: Label): Commit
    requires Commits(s, l)
  {
    Commit(l.id, s.ops[l.id].pc.seed,
           if l.Finalize? then Turned(l.outcome) else Replacement(s.ops[l.id].kind, l.result))
  }

  /** What a step looks like from the history that commits nothing: nobody's verdict on having committed changes. */
  ghost predicate Hushed(s: State, s': State) {
    && s'.log == s.log
    && (forall id | id in s.ops :: id in s'.ops && Committed(s'.ops[id]) == Committed(s.ops[id]))
    && (forall id | id in s'.ops && id !in s.ops :: !Committed(s'.ops[id]))
  }

  /** At most one operation moved, and it did not commit by moving. */
  predicate OneMoved(s: State, s': State, id: nat) {
    && s'.log == s.log
    && (s'.ops == s.ops
        || (&& id in s'.ops && s'.ops == s.ops[id := s'.ops[id]]
            && Committed(s'.ops[id]) == (id in s.ops && Committed(s.ops[id]))))
  }

  lemma OneMovedHushed(s: State, s': State, id: nat)
    requires OneMoved(s, s', id)
    ensures Hushed(s, s')
  {
  }

  lemma QueueSilent(repair: Repair, s: State, l: Label)
    requires l.Register? || l.Acquire? || l.GiveUp? || l.CheckContext?
    ensures OneMoved(s, Step(repair, s, l), l.id)
  {
  }

  lemma TurnSilent(repair: Repair, s: State, l: Label)
    requires l.SetUp? || l.Finish? || l.Unlock?
    ensures OneMoved(s, Step(repair, s, l), l.id)
  {
  }

  lemma BodySilent(repair: Repair, s: State, l: Label)
    requires (l.Finalize? || l.Replace?) && !Commits(s, l)
    ensures OneMoved(s, Step(repair, s, l), l.id)
  {
  }

  lemma OutsideSilent(repair: Repair, s: State, l: Label)
    requires l.Arrive? || l.Cancel?
    ensures OneMoved(s, Step(repair, s, l), l.id)
  {
  }

  lemma Silent(repair: Repair, s: State, l: Label)
    requires !Commits(s, l)
    ensures Hushed(s, Step(repair, s, l))
  {
    if l.Close? {
      OneMovedHushed(s, CloseStep(s), if s.turn.Some? then s.turn.value else 0);
    } else {
      if l.Arrive? || l.Cancel? {
        OutsideSilent(repair, s, l);
      } else if l.Finalize? || l.Replace? {
        BodySilent(repair, s, l);
      } else if l.SetUp? || l.Finish? || l.Unlock? {
        TurnSilent(repair, s, l);
      } else {
        QueueSilent(repair, s, l);
      }
      OneMovedHushed(s, Step(repair, s, l), l.id);
    }
  }

  lemma SilentLog(repair: Repair, s: State, s': State)
    requires LogOk(repair, s) && Hushed(s, s')
    ensures LogOk(repair, s')
  {
    forall id | id in s'.ops && Committed(s'.ops[id])
      ensures InLog(s', id)
    {
      assert InLog(s, id);
    }
  }

  lemma CommitShape(repair: Repair, s: State, l: Label)
    requires Commits(s, l)
    ensures var s' := Step(repair, s, l);
            && s'.log == s.log + [CommitOf(s, l)]
            && l.id in s'.ops && s'.ops == s.ops[l.id := s'.ops[l.id]] && Committed(s'.ops[l.id])
            && !Committed(s.ops[l.id])
            && s'.gate == s.gate && s'.ops[l.id].pc != s.ops[l.id].pc
            && !s'.ops[l.id].pc.Running? && !s'.ops[l.id].pc.Prepared?
  {
  }

  lemma CommitInLog(s: State, s': State, c: Commit)
    requires s'.log == s.log + [c] && c.id in s'.ops && s'.ops == s.ops[c.id := s'.ops[c.id]]
    requires forall id | id in s.ops && Committed(s.ops[id]) :: InLog(s, id)
    ensures forall id | id in s'.ops && Committed(s'.ops[id]) :: InLog(s', id)
  {
    forall j | j in s'.ops && Committed(s'.ops[j])
      ensures InLog(s', j)
    {
      if j == c.id {
        assert s'.log[|s.log|].id == j;
      } else {
        assert InLog(s, j);
        var k :| 0 <= k < |s.log| && s.log[k].id == j;
        assert s'.log[k].id == j;
      }
    }
  }

  lemma CommitLog(repair: Repair, s: State, s': State, c: Commit)
    requires LogOk(repair, s) && c.id in s.ops && !Committed(s.ops[c.id])
    requires s'.log == s.log + [c] && c.id in s'.ops && s'.ops == s.ops[c.id := s'.ops[c.id]]
    requires Committed(s'.ops[c.id]) && c.seed == Seed(repair, Replay(repair, s.log))
    ensures LogOk(repair, s')
  {
    CommitSeeds(repair, s.log, c);
    CommitInLog(s, s', c);
    CommitOnce(repair, s, s', c);
  }

  lemma CommitSeeds(repair: Repair, log: seq<Commit>, c: Commit)
    requires forall k | 0 <= k < |log| :: log[k].seed == Seed(repair, Replay(repair, log[..k]))
    requires c.seed == Seed(repair, Replay(repair, log))
    ensures var log' := log + [c];
            forall k | 0 <= k < |log'| :: log'[k].seed == Seed(repair, Replay(repair, log'[..k]))
  {
    var log' := log + [c];
    forall k | 0 <= k < |log'|
      ensures log'[k].seed == Seed(repair, Replay(repair, log'[..k]))
    {
      if k < |log| {
        assert log'[..k] == log[..k];
      } else {
        assert log'[..k] == log;
      }
    }
  }

  lemma CommitOnce(repair: Repair, s: State, s': State, c: Commit)
    requires LogOk(repair, s) && c.id in s.ops && !Committed(s.ops[c.id])
    requires s'.log == s.log + [c] && c.id in s'.ops && s'.ops == s.ops[c.id := s'.ops[c.id]] && Committed(s'.ops[c.id])
    ensures forall k | 0 <= k < |s'.log| :: s'.log[k].id in s'.ops && Committed(s'.ops[s'.log[k].id])
    ensures forall j, k | 0 <= j < k < |s'.log| :: s'.log[j].id != s'.log[k].id
  {
  }

  lemma ReplayAppend(repair: Repair, log: seq<Commit>, c: Commit)
    ensures Replay(repair, log + [c]) == Apply(repair, Replay(repair, log), c.effect)
  {
    assert (log + [c])[..|log|] == log;
  }

  lemma CommitKeeps(repair: Repair, s: State, l: Label)
    requires Inv(repair, s) && Commits(s, l)
    ensures Inv(repair, Step(repair, s, l))
  {
    var s' := Step(repair, s, l);
    var c := CommitOf(s, l);
    StepGate(repair, s, l);
    CommitShape(repair, s, l);
    assert s.gate == Some(l.id) && Holder(s) == s.ops[l.id].pc;
    CommitLog(repair, s, s', c);
    ReplayAppend(repair, s.log, c);
    CommitCache(repair, s, l, Replay(repair, s.log));
  }

  lemma CommitCache(repair: Repair, s: State, l: Label, done: Cache)
    requires Commits(s, l) && s.gate == Some(l.id) && CacheOk(repair, s.cache, Holder(s), done)
    ensures Step(repair, s, l).cache == Apply(repair, done, CommitOf(s, l).effect)
  {
  }

  lemma SilentCache(repair: Repair, s: State, l: Label, done: Cache)
    requires GateOk(s) && !Commits(s, l) && CacheOk(repair, s.cache, Holder(s), done)
    ensures var s' := Step(repair, s, l); CacheOk(repair, s'.cache, Holder(s'), done)
  {
  }

  lemma StepKeeps(repair: Repair, s: State, l: Label)
    requires Inv(repair, s)
    ensures Inv(repair, Step(repair, s, l))
  {
    if Commits(s, l) {
      CommitKeeps(repair, s, l);
    } else {
      StepGate(repair, s, l);
      Silent(repair, s, l);
      SilentLog(repair, s, Step(repair, s, l));
      SilentCache(repair, s, l, Replay(repair, s.log));
    }
  }

  lemma {:induction false} AlwaysInv(repair: Repair, schedule: seq<Label>)
    ensures Inv(repair, Exec(repair, Init(), schedule))
  {
    if schedule != [] {
      AlwaysInv(repair, schedule[..|schedule| - 1]);
      StepKeeps(repair, Exec(repair, Init(), schedule[..|schedule| - 1]), schedule[|schedule| - 1]);
    }
  }

  // ---------------------------------------------------------------- what every schedule guarantees

  /** Every run is equivalent to its sequential history: each operation saw exactly its predecessors' result (repaired
  unless exact), took effect at most once, and with the gate free the cache is what the history leaves. */
  lemma Linearizable(repair: Repair, schedule: seq<Label>)
    ensures var s := Exec(repair, Init(), schedule);
            && (forall k | 0 <= k < |s.log| :: s.log[k].seed == Seed(repair, Replay(repair, s.log[..k])))
            && (forall j, k | 0 <= j < k < |s.log| :: s.log[j].id != s.log[k].id)
            && (s.gate.None? ==> s.cache == Replay(repair, s.log))
  {
    AlwaysInv(repair, schedule);
  }

  /** An operation is in the history exactly when it succeeded; a cancelled wait, a refusal or a failed set-up is not,
  and so changed nothing. */
  lemma OnlySuccessCommits(repair: Repair, schedule: seq<Label>, id: nat)
    requires var s := Exec(repair, Init(), schedule); id in s.ops && s.ops[id].pc.Done?
    ensures var s := Exec(repair, Init(), schedule); InLog(s, id) <==> s.ops[id].pc.result == Ok
  {
    AlwaysInv(repair, schedule);
    var s := Exec(repair, Init(), schedule);
    if InLog(s, id) {
      var k :| 0 <= k < |s.log| && s.log[k].id == id;
      assert Committed(s.ops[s.log[k].id]);
    }
  }

  lemma {:induction false} HistoryGrows(repair: Repair, s: State, more: seq<Label>)
    ensures s.log <= Exec(repair, s, more).log
  {
    if more != [] {
      var n := |more| - 1;
      HistoryGrows(repair, s, more[..n]);
      var t := Exec(repair, s, more[..n]);
      if Commits(t, more[n]) {
        CommitShape(repair, t, more[n]);
      } else {
        Silent(repair, t, more[n]);
      }
    }
  }

  /** The history respects real time: an operation that arrives after another has committed is ordered after it. */
  lemma RealTimeOrder(repair: Repair, schedule: seq<Label>, more: seq<Label>, i: nat, j: nat)
    requires var s := Exec(repair, Init(), schedule);
             var s' := Exec(repair, s, more);
             i < |s.log| && j < |s'.log| && s'.log[j].id !in s.ops
    ensures var s := Exec(repair, Init(), schedule);
            i < j && Exec(repair, s, more).log[i] == s.log[i]
  {
    AlwaysInv(repair, schedule);
    HistoryGrows(repair, Exec(repair, Init(), schedule), more);
  }

  /** Nothing leaks the gate: exactly the operation inside it holds it, and a finished one never does. */
  lemma GateNotLeaked(repair: Repair, schedule: seq<Label>, id: nat)
    requires var s := Exec(repair, Init(), schedule); id in s.ops && s.ops[id].pc.Done?
    ensures Exec(repair, Init(), schedule).gate != Some(id)
    ensures Exec(repair, Init(), schedule).turn != Some(id)
  {
    AlwaysInv(repair, schedule);
  }

  /** Interactive turns never refuse each other: when one finds the runner busy, a headless turn owns it. */
  lemma BusyMeansHeadless(repair: Repair, schedule: seq<Label>, id: nat, ok: bool)
    requires var s := Exec(repair, Init(), schedule);
             && id in s.ops && s.ops[id].kind.Interactive? && s.ops[id].pc.Prepared?
             && Step(repair, s, SetUp(id, ok)).ops[id].pc == Ending(WasBusy)
    ensures var s := Exec(repair, Init(), schedule);
            s.turn.Some? && s.turn.value in s.ops && s.ops[s.turn.value].kind.Headless?
  {
    AlwaysInv(repair, schedule);
    BusyOwner(repair, Exec(repair, Init(), schedule), id, ok);
  }

  lemma BusyOwner(repair: Repair, s: State, id: nat, ok: bool)
    requires GateOk(s) && TurnOk(s) && id in s.ops && s.ops[id].kind.Interactive? && s.ops[id].pc.Prepared?
    requires Step(repair, s, SetUp(id, ok)).ops[id].pc == Ending(WasBusy)
    ensures s.turn.Some? && s.turn.value in s.ops && s.ops[s.turn.value].kind.Headless?
  {
  }

  predicate WasRefused(op: Op) {
    (op.pc.Ending? || op.pc.Leaving? || op.pc.Outside? || op.pc.Done?) && op.pc.result == WasBusy
  }

  predicate NeverBusy(s: State) {
    forall id | id in s.ops :: !s.ops[id].kind.Headless? && !WasRefused(s.ops[id])
  }

  /** A run without headless turns never reports busy. */
  lemma {:induction false} InteractiveNeverBusy(repair: Repair, schedule: seq<Label>)
    requires forall k | 0 <= k < |schedule| && schedule[k].Arrive? :: !schedule[k].kind.Headless?
    ensures NeverBusy(Exec(repair, Init(), schedule))
  {
    if schedule != [] {
      var n := |schedule| - 1;
      InteractiveNeverBusy(repair, schedule[..n]);
      AlwaysInv(repair, schedule[..n]);
      NeverBusyStep(repair, Exec(repair, Init(), schedule[..n]), schedule[n]);
    }
  }

  lemma NeverBusyStep(repair: Repair, s: State, l: Label)
    requires GateOk(s) && TurnOk(s) && (l.Arrive? ==> !l.kind.Headless?)
    requires NeverBusy(s)
    ensures NeverBusy(Step(repair, s, l))
  {
  }

  /** After closing has begun no turn is registered any more. */
  lemma ClosedAdmitsNoTurn(repair: Repair, s: State, l: Label)
    requires s.closing
    ensures var s' := Step(repair, s, l); s'.closing && (s'.turn == s.turn || s'.turn.None?)
  {
  }

  /** No operation is stuck: while one is unfinished, some step other than an arrival, a cancellation or a close changes
  the state. */
  lemma Progress(repair: Repair, schedule: seq<Label>, id: nat)
    requires var s := Exec(repair, Init(), schedule); id in s.ops && !s.ops[id].pc.Done?
    ensures var s := Exec(repair, Init(), schedule);
            exists l: Label :: !l.Arrive? && !l.Cancel? && !l.Close? && Step(repair, s, l) != s
  {
    AlwaysInv(repair, schedule);
    var s := Exec(repair, Init(), schedule);
    var l: Label;
    if s.ops[id].pc.Queued? && s.gate.Some? {
      l := NextLabel(repair, s, s.gate.value);
    } else {
      l := NextLabel(repair, s, id);
    }
  }

  lemma NextLabel(repair: Repair, s: State, id: nat) returns (l: Label)
    requires id in s.ops && !s.ops[id].pc.Done? && (s.ops[id].pc.Queued? ==> s.gate.None?)
    ensures !l.Arrive? && !l.Cancel? && !l.Close? && Step(repair, s, l) != s
  {
    var me := s.ops[id];
    match me.pc
    case Arriving => l := Register(id);
    case Queued => l := Acquire(id);
    case Held => l := CheckContext(id);
    case Prepared(_) =>
      if me.kind.Interactive? || me.kind.Headless? { l := SetUp(id, true); } else { l := Replace(id, CompactFailed); }
    case Running(_) => l := Finalize(id, Panicked);
    case Ending(_) => l := Finish(id);
    case Leaving(_) => l := Unlock(id);
    case Outside(_) => l := Finish(id);
    assert Step(repair, s, l).ops[id].pc != me.pc;
  }

  // ---------------------------------------------------------------- every operation ends

  /** How far an operation is from its end. */
  function Distance(op: Op): int {
    match op.pc
    case Arriving => 8
    case Queued => 7
    case Held => 6
    case Prepared(_) => 5
    case Running(_) => 4
    case Ending(_) => 3
    case Leaving(_) => 2
    case Outside(_) => 1
    case Done(_) => 0
  }

  function Distances(ops: map<nat, Op>): map<nat, int> {
    map id | id in ops :: Distance(ops[id])
  }

  predicate Nearer(s: State, s': State, id: nat) {
    && id in s.ops && id in s'.ops && s'.ops == s.ops[id := s'.ops[id]]
    && Distance(s'.ops[id]) < Distance(s.ops[id])
  }

  lemma NearerSum(s: State, s': State, id: nat)
    requires Nearer(s, s', id)
    ensures Sum(Distances(s'.ops)) < Sum(Distances(s.ops))
  {
    assert Distances(s'.ops) == Distances(s.ops)[id := Distance(s'.ops[id])];
    SumUpdate(Distances(s.ops), id, Distance(s'.ops[id]));
  }

  lemma QueueNearer(repair: Repair, s: State, l: Label)
    requires l.Register? || l.Acquire? || l.GiveUp? || l.CheckContext?
    requires Step(repair, s, l) != s
    ensures Nearer(s, Step(repair, s, l), l.id)
  {
  }

  lemma TurnNearer(repair: Repair, s: State, l: Label)
    requires l.SetUp? || l.Finish? || l.Unlock?
    requires Step(repair, s, l) != s
    ensures Nearer(s, Step(repair, s, l), l.id)
  {
  }

  lemma BodyNearer(repair: Repair, s: State, l: Label)
    requires l.Finalize? || l.Replace?
    requires Step(repair, s, l) != s
    ensures Nearer(s, Step(repair, s, l), l.id)
  {
  }

  /** Every step that changes anything, other than an arrival, a cancellation or a close, brings one operation nearer
  its end and moves no other, so with no new arrivals every operation ends. */
  lemma StepsCountDown(repair: Repair, s: State, l: Label)
    requires !l.Arrive? && !l.Cancel? && !l.Close? && Step(repair, s, l) != s
    ensures 0 <= Sum(Distances(Step(repair, s, l).ops)) < Sum(Distances(s.ops))
  {
    if l.Finalize? || l.Replace? {
      BodyNearer(repair, s, l);
    } else if l.SetUp? || l.Finish? || l.Unlock? {
      TurnNearer(repair, s, l);
    } else {
      QueueNearer(repair, s, l);
    }
    NearerSum(s, Step(repair, s, l), l.id);
    SumNonNegative(Distances(Step(repair, s, l).ops));
  }

  // ---------------------------------------------------------------- a failed compaction may change the context

  lemma ThenStep(repair: Repair, ls: seq<Label>, s: State, l: Label) returns (more: seq<Label>)
    requires s == Exec(repair, Init(), ls)
    ensures more == ls + [l] && Exec(repair, Init(), more) == Step(repair, s, l)
  {
    more := ls + [l];
    assert more[..|ls|] == ls;
  }

  /** The operation arrives and reaches the gate, which is free. */
  lemma Enters(repair: Repair, ls: seq<Label>, s: State, id: nat, kind: Kind) returns (more: seq<Label>, s': State)
    requires s == Exec(repair, Init(), ls) && s.gate.None? && id !in s.ops && !kind.Headless?
    ensures s' == Exec(repair, Init(), more)
    ensures s' == s.(gate := Some(id), ops := s.ops[id := Op(kind, Prepared(Seed(repair, s.cache)), false, false)])
  {
    more := ThenStep(repair, ls, s, Arrive(id, kind));
    var s1 := s.(ops := s.ops[id := Op(kind, Arriving, false, false)]);
    more := ThenStep(repair, more, s1, Register(id));
    var s2 := s.(ops := s.ops[id := Op(kind, Queued, false, false)]);
    assert Step(repair, s1, Register(id)) == s2;
    more := ThenStep(repair, more, s2, Acquire(id));
    var s3 := s.(gate := Some(id), ops := s.ops[id := Op(kind, Held, false, false)]);
    assert Step(repair, s2, Acquire(id)) == s3;
    more := ThenStep(repair, more, s3, CheckContext(id));
    s' := s.(gate := Some(id), ops := s.ops[id := Op(kind, Prepared(Seed(repair, s.cache)), false, false)]);
    assert Step(repair, s3, CheckContext(id)) == s';
  }

  /** The state while the one interactive turn `id` is at `pc`. */
  function TurnAt(s: State, id: nat, pc: Pc, finished: bool, context: Context): State {
    s.(ops := map[id := Op(Interactive, pc, false, finished)], cache := s.cache.(context := context))
  }

  /** A prepared interactive turn returns `m`. */
  lemma Returns(repair: Repair, ls: seq<Label>, s: State, id: nat, seed: Context, m: Context)
    returns (more: seq<Label>, s': State)
    requires s == Exec(repair, Init(), ls) && !s.closing && s.turn.None? && m != []
    requires s.ops == map[id := Op(Interactive, Prepared(seed), false, false)]
    ensures s' == Exec(repair, Init(), more)
    ensures s' == TurnAt(s, id, Ending(Ok), false, m).(
                    turn := Some(id), log := s.log + [Commit(id, seed, Turned(Returned(m)))])
  {
    more := ThenStep(repair, ls, s, SetUp(id, true));
    var s1 := TurnAt(s, id, Running(seed), false, seed).(turn := Some(id));
    assert Step(repair, s, SetUp(id, true)) == s1;
    more := ThenStep(repair, more, s1, Finalize(id, Returned(m)));
    s' := Step(repair, s1, Finalize(id, Returned(m)));
  }

  /** It finishes and hands the gate back. */
  lemma Leaves(repair: Repair, ls: seq<Label>, s: State, id: nat) returns (more: seq<Label>, s': State)
    requires s == Exec(repair, Init(), ls) && s.turn == Some(id) && s.gate == Some(id)
    requires s == TurnAt(s, id, Ending(Ok), false, s.cache.context)
    ensures s' == Exec(repair, Init(), more)
    ensures s' == TurnAt(s, id, Done(Ok), true, s.cache.context).(turn := None, gate := None)
  {
    more := ThenStep(repair, ls, s, Finish(id));
    var s1 := TurnAt(s, id, Leaving(Ok), true, s.cache.context).(turn := None);
    assert Step(repair, s, Finish(id)) == s1;
    more := ThenStep(repair, more, s1, Unlock(id));
    s' := Step(repair, s1, Unlock(id));
  }

  /** A compaction that is about to fail at the end of `schedule`, and would change the context. */
  ghost predicate FailsWithChange(repair: Repair, schedule: seq<Label>, id: nat) {
    var s := Exec(repair, Init(), schedule);
    && id in s.ops && s.ops[id].kind.Compacting? && s.ops[id].pc.Prepared?
    && Step(repair, s, Replace(id, CompactFailed)).cache != s.cache
  }

  /** A turn that leaves a context the repair would change, and a compaction that fails after it. */
  lemma FailedCompactionChanges(repair: Repair, m: Context)
    requires m != [] && repair(m) != m
    ensures exists schedule :: FailsWithChange(repair, schedule, 1)
  {
    var ls, s := Enters(repair, [], Init(), 0, Interactive);
    ls, s := Returns(repair, ls, s, 0, repair([]), m);
    ls, s := Leaves(repair, ls, s, 0);
    ls, s := Enters(repair, ls, s, 1, Compacting);
    assert Step(repair, s, Replace(1, CompactFailed)).cache == Cache(repair(m), false);
    assert FailsWithChange(repair, ls, 1);
  }

  /** The comment's promise that a failed compaction leaves the context alone holds in every run exactly when the
  repair changes nothing. */
  lemma FailedCompactionKeeps(repair: Repair)
    ensures (forall schedule, id :: !FailsWithChange(repair, schedule, id)) <==>
            (forall m: Context | m != [] :: repair(m) == m)
  {
    if forall schedule, id :: !FailsWithChange(repair, schedule, id) {
      forall m: Context | m != []
        ensures repair(m) == m
      {
        if repair(m) != m { FailedCompactionChanges(repair, m); }
      }
    } else {
      var schedule, id :| FailsWithChange(repair, schedule, id);
      FailedCompaction(repair, Exec(repair, Init(), schedule).cache);
    }
  }
}
