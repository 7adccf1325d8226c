/** Single-flight startup of the browser session a live runner owns.

Any number of callers share one construction. The caller that starts it keeps ownership while the factory runs and
while an unpublished session is cleaned up, with the lock released in between. Contexts and start-up channels are
named by the number of the construction they belong to; `cancelled` collects the contexts whose cancel function has
been called. */
module LiveComputer {
  import opened Base
  import opened Sums

  // ---------------------------------------------------------------- guarded values

  datatype Shared = Shared(
    session: Option<nat>,
    starting: Option<nat>,
    startupCancel: Option<nat>,
    sessionCancel: Option<nat>,
    stopping: bool)

  datatype Admission = Refused | Reuse(session: nat) | WaitFor(start: nat) | Started(start: nat)

  /** What a factory call hands back; nothing stops it from returning a session together with an error. */
  datatype Made = Made(session: Option<nat>, failed: bool)

  /** First critical section of `sessionFor`. */
  function Enter(sh: Shared, next: nat): (Shared, Admission) {
    if sh.stopping then (sh, Refused)
    else if sh.session.Some? then (sh, Reuse(sh.session.value))
    else if sh.starting.Some? then (sh, WaitFor(sh.starting.value))
    else (sh.(starting := Some(next), startupCancel := Some(next)), Started(next))
  }

  /** The section after the factory returned: publish, unless the factory or the context failed. */
  function Commit(sh: Shared, start: nat, made: Made, cause: bool): (Shared, bool) {
    if cause || made.failed then (sh, false)
    else (Shared(made.session, None, None, Some(start), sh.stopping), true)
  }

  /** Gives start-up ownership back after a clean-up. */
  function Release(sh: Shared): Shared {
    sh.(starting := None, startupCancel := None)
  }

  /** What `Close` takes out under the lock. */
  function Take(sh: Shared): (Shared, Option<nat>, Option<nat>) {
    (sh.(session := None, sessionCancel := None), sh.session, sh.sessionCancel)
  }

  /** Stopping is one-way; with it goes the context of the construction in flight, if there is one. */
  function Stopped(sh: Shared): (Shared, set<nat>) {
    (sh.(stopping := true), if sh.startupCancel.Some? then {sh.startupCancel.value} else {})
  }

  class Computer {
    var session: Option<nat>
    var starting: Option<nat>
    var startupCancel: Option<nat>
    var sessionCancel: Option<nat>
    var stopping: bool
    var cancelled: set<nat>

    constructor ()
      ensures Value() == Shared(None, None, None, None, false) && cancelled == {}
    {
      session, starting, startupCancel, sessionCancel := None, None, None, None;
      stopping := false;
      cancelled := {};
    }

    ghost function Value(): Shared
      reads this
    {
      Shared(session, starting, startupCancel, sessionCancel, stopping)
    }

    method EnterSession(next: nat) returns (r: Admission)
      modifies this
      ensures (Value(), r) == Enter(old(Value()), next) && cancelled == old(cancelled)
    {
      if stopping { return Refused; }
      if session.Some? { return Reuse(session.value); }
      if starting.Some? { return WaitFor(starting.value); }
      starting := Some(next);
      startupCancel := Some(next);
      return Started(next);
    }

    method CommitSession(start: nat, made: Made) returns (published: bool)
      modifies this
      ensures (Value(), published) == Commit(old(Value()), start, made, start in old(cancelled))
      ensures cancelled == if published then old(cancelled) else old(cancelled) + {start}
    {
      if start in cancelled || made.failed {
        cancelled := cancelled + {start};
        return false;
      }
      session, sessionCancel := made.session, Some(start);
      startupCancel := None;
      starting := None;
      return true;
    }

    method ReleaseStart()
      modifies this
      ensures Value() == Release(old(Value())) && cancelled == old(cancelled)
    {
      startupCancel := None;
      starting := None;
    }

    method StopStartup()
      modifies this
      ensures Value() == Stopped(old(Value())).0 && cancelled == old(cancelled) + Stopped(old(Value())).1
    {
      stopping := true;
      if startupCancel.Some? {
        cancelled := cancelled + {startupCancel.value};
      }
    }

    method TakeSession() returns (s: Option<nat>, cancel: Option<nat>)
      modifies this
      ensures (Value(), s, cancel) == Take(old(Value())) && cancelled == old(cancelled)
    {
      s, cancel := session, sessionCancel;
      session := None;
      sessionCancel := None;
    }
  }

  // ---------------------------------------------------------------- interleavings

  /** Where one `sessionFor` call stands. */
  datatype Pc =
    | Top
    | Waiting(start: nat)
    | Constructing(start: nat)
    | Built(start: nat, made: Made)
    | Joined(start: nat, made: Made)
    | Checked(start: nat, made: Made)
    | Cleaning(start: nat, session: Option<nat>)
    | Releasing(start: nat)
    | Returned(session: Option<nat>)
    | Failed
  {
    predicate Done() { Returned? || Failed? }

    /** The construction this call owns, if any. */
    function Owns(): Option<nat> {
      if Constructing? || Built? || Joined? || Checked? || Cleaning? || Releasing? then Some(start) else None
    }

    /** The session only this call can reach, if any. */
    function Holds(): Option<nat> {
      match this
      case Built(_, made) => made.session
      case Joined(_, made) => made.session
      case Checked(_, made) => made.session
      case Cleaning(_, x) => x
      case _ => None
    }

    /** The request's cancellation may still be forwarded to the construction. */
    predicate Bridged() { Constructing? || Built? }
  }

  /** The callback that forwards request cancellation: not yet run, running, or finished/stopped. */
  datatype Bridge = Armed | Firing | Over

  datatype Caller = Caller(pc: Pc, requestDone: bool, bridge: Bridge)

  datatype Closer = Took(session: Option<nat>, cancel: Option<nat>) | Cancelling(cancel: Option<nat>) | Finished

  datatype State = State(
    sh: Shared,
    cancelled: set<nat>,
    starts: nat,
    callers: map<nat, Caller>,
    closers: map<nat, Closer>,
    made: map<nat, nat>,
    closes: multiset<nat>)

  datatype Label =
    | Arrive(c: nat)
    | CancelRequest(c: nat)
    | GiveUp(c: nat)
    | Lock(c: nat)
    | Wake(c: nat)
    | Fire(c: nat)
    | Forward(c: nat)
    | FactoryReturns(c: nat, made: Made)
    | JoinBridge(c: nat)
    | CheckRequest(c: nat)
    | CommitStep(c: nat)
    | CleanUp(c: nat)
    | ReleaseStep(c: nat)
    | Stop
    | CloseTake(k: nat)
    | CloseSession(k: nat)
    | CloseCancel(k: nat)

  function Init(): State {
    State(Shared(None, None, None, None, false), {}, 0, map[], map[], map[], multiset{})
  }

  function At(s: State, c: nat, pc: Pc): State
    requires c in s.callers
  {
    s.(callers := s.callers[c := s.callers[c].(pc := pc)])
  }

  function LockStep(s: State, c: nat): State
    requires c in s.callers
  {
    var (sh, r) := Enter(s.sh, s.starts);
    match r
    case Refused => At(s, c, Failed)
    case Reuse(x) => At(s, c, Returned(Some(x)))
    case WaitFor(n) => At(s, c, Waiting(n))
    case Started(n) =>
      s.(sh := sh, starts := s.starts + 1,
         callers := s.callers[c := s.callers[c].(pc := Constructing(n), bridge := Armed)])
  }

  function FactoryStep(s: State, c: nat, made: Made): State
    requires c in s.callers && s.callers[c].pc.Constructing?
  {
    var n := s.callers[c].pc.start;
    if made.session.None? then At(s, c, Built(n, made))
    else if made.session.value in s.made then s
    else At(s, c, Built(n, made)).(made := s.made[made.session.value := n])
  }

  /** Request cancellation reaches the construction through the bridge. */
  function ForwardStep(s: State, c: nat): State
    requires c in s.callers
  {
    var me := s.callers[c];
    if me.pc.Bridged() && me.bridge == Firing
    then s.(callers := s.callers[c := me.(bridge := Over)], cancelled := s.cancelled + {me.pc.start}) else s
  }

  /** The bridge is stopped, or joined if it already runs. */
  function JoinStep(s: State, c: nat): State
    requires c in s.callers
  {
    var me := s.callers[c];
    if me.pc.Built? && me.bridge != Firing
    then s.(callers := s.callers[c := me.(bridge := Over, pc := Joined(me.pc.start, me.pc.made))]) else s
  }

  function CheckStep(s: State, c: nat): State
    requires c in s.callers
  {
    var me := s.callers[c];
    if me.pc.Joined?
    then At(s, c, Checked(me.pc.start, me.pc.made)).(
           cancelled := s.cancelled + (if me.requestDone then {me.pc.start} else {}))
    else s
  }

  function CommitMove(s: State, c: nat): State
    requires c in s.callers && s.callers[c].pc.Checked?
  {
    var pc := s.callers[c].pc;
    var (sh, published) := Commit(s.sh, pc.start, pc.made, pc.start in s.cancelled);
    if published then At(s, c, Returned(pc.made.session)).(sh := sh)
    else At(s, c, Cleaning(pc.start, pc.made.session)).(cancelled := s.cancelled + {pc.start})
  }

  function CleanMove(s: State, c: nat): State
    requires c in s.callers && s.callers[c].pc.Cleaning?
  {
    var pc := s.callers[c].pc;
    At(s, c, Releasing(pc.start)).(
      closes := s.closes + (if pc.session.Some? then multiset{pc.session.value} else multiset{}))
  }

  function TakeMove(s: State, k: nat): State
    requires k !in s.closers
  {
    var (sh, x, n) := Take(s.sh);
    s.(sh := sh, closers := s.closers[k := Took(x, n)])
  }

  function CloseMove(s: State, k: nat): State
    requires k in s.closers && s.closers[k].Took?
  {
    var t := s.closers[k];
    s.(closers := s.closers[k := Cancelling(t.cancel)],
       closes := s.closes + (if t.session.Some? then multiset{t.session.value} else multiset{}))
  }

  function CancelMove(s: State, k: nat): State
    requires k in s.closers && s.closers[k].Cancelling?
  {
    var t := s.closers[k];
    s.(closers := s.closers[k := Finished],
       cancelled := s.cancelled + (if t.cancel.Some? then {t.cancel.value} else {}))
  }

  function StopMove(s: State): State {
    s.(sh := Stopped(s.sh).0, cancelled := s.cancelled + Stopped(s.sh).1)
  }

  /** One step of a schedule; a label that is not enabled leaves the state alone. */
  function Step(s: State, l: Label): State {
    match l
    case Stop => StopMove(s)
    case CloseTake(k) => if k in s.closers then s else TakeMove(s, k)
    case CloseSession(k) => if k in s.closers && s.closers[k].Took? then CloseMove(s, k) else s
    case CloseCancel(k) => if k in s.closers && s.closers[k].Cancelling? then CancelMove(s, k) else s
    case Arrive(c) => if c in s.callers then s else s.(callers := s.callers[c := Caller(Top, false, Over)])
    case _ => if l.c in s.callers then CallerStep(s, l) else s
  }

  predicate ByCaller(l: Label) {
    !l.Stop? && !l.CloseTake? && !l.CloseSession? && !l.CloseCancel? && !l.Arrive?
  }

  function CallerStep(s: State, l: Label): State
    requires ByCaller(l) && l.c in s.callers
  {
    var me := s.callers[l.c];
    match l
    case CancelRequest(c) => s.(callers := s.callers[c := me.(requestDone := true)])
    case GiveUp(c) => if (me.pc.Top? || me.pc.Waiting?) && me.requestDone then At(s, c, Failed) else s
    case Lock(c) => if me.pc.Top? then LockStep(s, c) else s
    case Wake(c) => if me.pc.Waiting? && s.sh.starting != Some(me.pc.start) then At(s, c, Top) else s
    case Fire(c) =>
      if me.pc.Bridged() && me.requestDone && me.bridge == Armed
      then s.(callers := s.callers[c := me.(bridge := Firing)]) else s
    case Forward(c) => ForwardStep(s, c)
    case FactoryReturns(c, made) => if me.pc.Constructing? then FactoryStep(s, c, made) else s
    case JoinBridge(c) => JoinStep(s, c)
    case CheckRequest(c) => CheckStep(s, c)
    case CommitStep(c) => if me.pc.Checked? then CommitMove(s, c) else s
    case CleanUp(c) => if me.pc.Cleaning? then CleanMove(s, c) else s
    case ReleaseStep(c) => if me.pc.Releasing? then At(s, c, Failed).(sh := Release(s.sh)) else s
  }

  function Exec(schedule: seq<Label>): State {
    if schedule == [] then Init() else Step(Exec(schedule[..|schedule| - 1]), schedule[|schedule| - 1])
  }

  // ---------------------------------------------------------------- the invariant

  /** The start-up channel exists exactly while one call owns the construction it announces. */
  ghost predicate SingleFlight(s: State) {
    && s.sh.startupCancel == s.sh.starting
    && (s.sh.starting.Some? ==> s.sh.session.None? && s.sh.starting.value < s.starts)
    && (s.sh.starting.Some? ==> exists c :: c in s.callers && s.callers[c].pc.Owns().Some?)
    && (forall c | c in s.callers && s.callers[c].pc.Owns().Some? :: s.sh.starting == s.callers[c].pc.Owns())
    && (forall c, d |
          c in s.callers && d in s.callers && s.callers[c].pc.Owns().Some? && s.callers[d].pc.Owns().Some? ::
          c == d)
    && (s.sh.stopping && s.sh.starting.Some? ==> s.sh.starting.value in s.cancelled)
    && (forall c | c in s.callers && s.callers[c].bridge == Firing :: s.callers[c].pc.Bridged())
  }

  /** A context that may be cancelled only by `Close`: it is live, and nobody else knows it. */
  ghost predicate Reserved(s: State, n: nat) {
    n < s.starts && n !in s.cancelled && s.sh.starting != Some(n)
  }

  ghost predicate Contexts(s: State) {
    && (s.sh.session.Some? ==> s.sh.sessionCancel.Some?)
    && (s.sh.sessionCancel.Some? ==> Reserved(s, s.sh.sessionCancel.value))
    && (forall k | k in s.closers && !s.closers[k].Finished? && s.closers[k].cancel.Some? ::
          Reserved(s, s.closers[k].cancel.value) && s.sh.sessionCancel != s.closers[k].cancel)
    && (forall k, j | k in s.closers && j in s.closers && !s.closers[k].Finished? && !s.closers[j].Finished?
                      && s.closers[k].cancel.Some? && s.closers[k].cancel == s.closers[j].cancel :: k == j)
  }

  /** Sessions go with the context they were built under. */
  ghost predicate Pairing(s: State) {
    && (forall c | c in s.callers && s.callers[c].pc.Holds().Some? ::
          var x := s.callers[c].pc.Holds().value; x in s.made && Some(s.made[x]) == s.callers[c].pc.Owns())
    && (s.sh.session.Some? ==>
          s.sh.session.value in s.made && s.sh.sessionCancel == Some(s.made[s.sh.session.value]))
    && (forall k | k in s.closers && s.closers[k].Took? && s.closers[k].session.Some? ::
          s.closers[k].session.value in s.made && s.closers[k].cancel == Some(s.made[s.closers[k].session.value]))
  }

  ghost predicate Held(s: State, x: nat) {
    exists c :: c in s.callers && s.callers[c].pc.Holds() == Some(x)
  }

  ghost predicate Taken(s: State, x: nat) {
    exists k :: k in s.closers && s.closers[k].Took? && s.closers[k].session == Some(x)
  }

  /** Somebody is still responsible for closing `x`. */
  ghost predicate Owned(s: State, x: nat) {
    Held(s, x) || s.sh.session == Some(x) || Taken(s, x)
  }

  /** Every session the factory returned is either owned and unclosed, or closed once and owned by nobody. */
  ghost predicate Conserved(s: State) {
    && (forall x | x in s.made :: s.closes[x] == if Owned(s, x) then 0 else 1)
    && (forall x: nat | x !in s.made :: s.closes[x] == 0)
  }

  ghost predicate Inv(s: State) {
    SingleFlight(s) && Contexts(s) && Pairing(s) && Conserved(s)
  }

  // ---------------------------------------------------------------- every step keeps it

  /** A step that moves one caller to a program point holding the same session and owning the same construction, and
  cancels at most that construction's context. */
  ghost predicate Quiet(s: State, s': State, c: nat) {
    && c in s.callers && c in s'.callers
    && s' == s.(callers := s'.callers, cancelled := s'.cancelled)
    && s'.callers == s.callers[c := s'.callers[c]]
    && s'.callers[c].pc.Owns() == s.callers[c].pc.Owns()
    && s'.callers[c].pc.Holds() == s.callers[c].pc.Holds()
    && (s'.callers[c].bridge == Firing ==> s'.callers[c].pc.Bridged())
    && s.cancelled <= s'.cancelled
    && (forall n | n in s'.cancelled && n !in s.cancelled :: s.callers[c].pc.Owns() == Some(n))
  }

  /** Holding is unaffected when a caller keeps its session. */
  lemma SameOwned(s: State, s': State, c: nat)
    requires c in s.callers && c in s'.callers && s'.callers == s.callers[c := s'.callers[c]]
    requires s'.callers[c].pc.Holds() == s.callers[c].pc.Holds()
    requires s'.sh.session == s.sh.session && s'.closers == s.closers
    ensures forall x: nat :: Owned(s', x) == Owned(s, x)
  {
    forall x: nat
      ensures Held(s', x) == Held(s, x)
    {
      if Held(s, x) {
        var d :| d in s.callers && s.callers[d].pc.Holds() == Some(x);
        assert d in s'.callers && s'.callers[d].pc.Holds() == Some(x);
      }
    }
  }

  lemma QuietShape(s: State, s': State, c: nat)
    requires SingleFlight(s) && Contexts(s) && Pairing(s) && Quiet(s, s', c)
    ensures SingleFlight(s') && Contexts(s') && Pairing(s')
  {
    if s.sh.starting.Some? {
      var d :| d in s.callers && s.callers[d].pc.Owns().Some?;
      assert d in s'.callers && s'.callers[d].pc.Owns().Some?;
    }
  }

  lemma QuietKeeps(s: State, s': State, c: nat)
    requires Inv(s) && Quiet(s, s', c)
    ensures Inv(s')
  {
    QuietShape(s, s', c);
    SameOwned(s, s', c);
  }

  lemma StartShape(s: State, c: nat)
    requires SingleFlight(s) && Contexts(s) && Pairing(s) && c in s.callers && s.callers[c].pc.Top?
    requires Enter(s.sh, s.starts).1.Started?
    ensures var s' := LockStep(s, c); SingleFlight(s') && Contexts(s') && Pairing(s')
  {
    assert LockStep(s, c).callers[c].pc.Owns().Some?;
  }

  lemma LockKeeps(s: State, c: nat)
    requires Inv(s) && c in s.callers && s.callers[c].pc.Top?
    ensures Inv(LockStep(s, c))
  {
    var s' := LockStep(s, c);
    if Enter(s.sh, s.starts).1.Started? {
      StartShape(s, c);
      SameOwned(s, s', c);
    } else {
      QuietKeeps(s, s', c);
    }
  }

  /** While a construction is in flight, only its owner holds an unpublished session. */
  lemma OwnerHolds(s: State, c: nat)
    requires SingleFlight(s) && c in s.callers && s.callers[c].pc.Owns().Some?
    ensures forall x: nat :: Held(s, x) <==> s.callers[c].pc.Holds() == Some(x)
  {
    forall x: nat
      ensures Held(s, x) <==> s.callers[c].pc.Holds() == Some(x)
    {
      if Held(s, x) {
        var d :| d in s.callers && s.callers[d].pc.Holds() == Some(x);
        assert s.callers[d].pc.Owns().Some?;
      }
    }
  }

  lemma NobodyHolds(s: State)
    requires SingleFlight(s) && s.sh.starting.None?
    ensures forall x: nat :: !Held(s, x)
  {
    assert forall c | c in s.callers :: s.callers[c].pc.Owns().None?;
  }

  lemma FactoryShape(s: State, c: nat, x: nat, failed: bool)
    requires SingleFlight(s) && Contexts(s) && Pairing(s) && x !in s.made
    requires c in s.callers && s.callers[c].pc.Constructing?
    ensures var s' := FactoryStep(s, c, Made(Some(x), failed)); SingleFlight(s') && Contexts(s') && Pairing(s')
  {
    assert FactoryStep(s, c, Made(Some(x), failed)).callers[c].pc.Owns().Some?;
  }

  lemma FactoryKeeps(s: State, c: nat, made: Made)
    requires Inv(s) && c in s.callers && s.callers[c].pc.Constructing?
    ensures Inv(FactoryStep(s, c, made))
  {
    var s' := FactoryStep(s, c, made);
    if made.session.None? {
      QuietKeeps(s, s', c);
    } else if made.session.value !in s.made {
      FactoryShape(s, c, made.session.value, made.failed);
      OwnerHolds(s, c);
      OwnerHolds(s', c);
      assert forall x: nat :: Taken(s', x) == Taken(s, x);
    }
  }

  lemma PublishShape(s: State, c: nat)
    requires SingleFlight(s) && Contexts(s) && Pairing(s) && c in s.callers && s.callers[c].pc.Checked?
    requires s.callers[c].pc.start !in s.cancelled && !s.callers[c].pc.made.failed
    ensures var s' := CommitMove(s, c); SingleFlight(s') && Contexts(s') && Pairing(s')
  {
  }

  lemma CommitKeeps(s: State, c: nat)
    requires Inv(s) && c in s.callers && s.callers[c].pc.Checked?
    ensures Inv(CommitMove(s, c))
  {
    var s' := CommitMove(s, c);
    if s.callers[c].pc.start in s.cancelled || s.callers[c].pc.made.failed {
      QuietKeeps(s, s', c);
    } else {
      PublishShape(s, c);
      OwnerHolds(s, c);
      NobodyHolds(s');
      assert forall x: nat :: Taken(s', x) == Taken(s, x);
    }
  }

  lemma CleanUpShape(s: State, c: nat)
    requires SingleFlight(s) && Contexts(s) && Pairing(s) && c in s.callers && s.callers[c].pc.Cleaning?
    ensures var s' := CleanMove(s, c); SingleFlight(s') && Contexts(s') && Pairing(s')
  {
    assert CleanMove(s, c).callers[c].pc.Owns().Some?;
  }

  /** An unpublished session is held by its constructor alone. */
  lemma HeldAlone(s: State, c: nat, x: nat)
    requires Inv(s) && c in s.callers && s.callers[c].pc.Holds() == Some(x)
    ensures s.sh.session != Some(x) && !Taken(s, x)
  {
    assert s.callers[c].pc.Owns().Some?;
    if Taken(s, x) { assert false; }
  }

  lemma CleanUpKeeps(s: State, c: nat)
    requires Inv(s) && c in s.callers && s.callers[c].pc.Cleaning?
    ensures Inv(CleanMove(s, c))
  {
    var s' := CleanMove(s, c);
    CleanUpShape(s, c);
    OwnerHolds(s, c);
    OwnerHolds(s', c);
    assert forall x: nat :: Taken(s', x) == Taken(s, x);
    if s.callers[c].pc.session.Some? {
      HeldAlone(s, c, s.callers[c].pc.session.value);
    }
  }

  lemma ReleaseKeeps(s: State, c: nat)
    requires Inv(s) && c in s.callers && s.callers[c].pc.Releasing?
    ensures Inv(At(s, c, Failed).(sh := Release(s.sh)))
  {
    var s' := At(s, c, Failed).(sh := Release(s.sh));
    assert SingleFlight(s') && Contexts(s');
    OwnerHolds(s, c);
    NobodyHolds(s');
    assert forall x: nat :: Taken(s', x) == Taken(s, x);
  }

  predicate BridgeFits(s: State, c: nat)
    requires c in s.callers
  {
    s.callers[c].bridge == Firing ==> s.callers[c].pc.Bridged()
  }

  lemma WaitingQuiet(s: State, l: Label)
    requires l.CancelRequest? || l.GiveUp? || l.Wake? || l.Fire?
    requires l.c in s.callers && BridgeFits(s, l.c)
    ensures Quiet(s, CallerStep(s, l), l.c)
  {
  }

  lemma BridgeQuiet(s: State, c: nat)
    requires c in s.callers && BridgeFits(s, c)
    ensures Quiet(s, ForwardStep(s, c), c)
    ensures Quiet(s, JoinStep(s, c), c)
    ensures Quiet(s, CheckStep(s, c), c)
  {
  }

  lemma WaitingKeeps(s: State, l: Label)
    requires Inv(s)
    requires l.CancelRequest? || l.GiveUp? || l.Wake? || l.Fire? || l.Forward? || l.JoinBridge? || l.CheckRequest?
    requires l.c in s.callers
    ensures Inv(CallerStep(s, l))
  {
    if l.CancelRequest? || l.GiveUp? || l.Wake? || l.Fire? {
      WaitingQuiet(s, l);
    } else {
      BridgeQuiet(s, l.c);
    }
    QuietKeeps(s, CallerStep(s, l), l.c);
  }

  lemma CallerKeeps(s: State, l: Label)
    requires Inv(s) && ByCaller(l) && l.c in s.callers
    ensures Inv(CallerStep(s, l))
  {
    var me := s.callers[l.c].pc;
    match l
    case Lock(c) => if me.Top? { LockKeeps(s, c); }
    case FactoryReturns(c, made) => if me.Constructing? { FactoryKeeps(s, c, made); }
    case CommitStep(c) => if me.Checked? { CommitKeeps(s, c); }
    case CleanUp(c) => if me.Cleaning? { CleanUpKeeps(s, c); }
    case ReleaseStep(c) => if me.Releasing? { ReleaseKeeps(s, c); }
    case _ => WaitingKeeps(s, l);
  }

  lemma ArriveShape(s: State, c: nat)
    requires SingleFlight(s) && Contexts(s) && Pairing(s) && c !in s.callers
    ensures var s' := Step(s, Arrive(c)); SingleFlight(s') && Contexts(s') && Pairing(s')
  {
    if s.sh.starting.Some? {
      var d :| d in s.callers && s.callers[d].pc.Owns().Some?;
      assert Step(s, Arrive(c)).callers[d].pc.Owns().Some?;
    }
  }

  lemma ArriveKeeps(s: State, c: nat)
    requires Inv(s) && c !in s.callers
    ensures Inv(Step(s, Arrive(c)))
  {
    var s' := Step(s, Arrive(c));
    ArriveShape(s, c);
    forall x: nat
      ensures Owned(s', x) == Owned(s, x)
    {
      if Held(s, x) {
        var d :| d in s.callers && s.callers[d].pc.Holds() == Some(x);
        assert s'.callers[d].pc.Holds() == Some(x);
      }
      assert Taken(s', x) == Taken(s, x);
    }
  }

  lemma StopKeeps(s: State)
    requires Inv(s)
    ensures Inv(StopMove(s))
  {
    var s' := StopMove(s);
    assert SingleFlight(s') && Contexts(s') && Pairing(s');
    assert forall x: nat :: Held(s', x) == Held(s, x) && Taken(s', x) == Taken(s, x);
  }

  lemma TakeKeeps(s: State, k: nat)
    requires Inv(s) && k !in s.closers
    ensures Inv(TakeMove(s, k))
  {
    var s' := TakeMove(s, k);
    forall x: nat
      ensures Owned(s', x) == Owned(s, x)
    {
      assert Held(s', x) == Held(s, x);
      if Taken(s, x) {
        var j :| j in s.closers && s.closers[j].Took? && s.closers[j].session == Some(x);
        assert s'.closers[j] == s.closers[j];
      }
      if s.sh.session == Some(x) {
        assert s'.closers[k].Took? && s'.closers[k].session == Some(x);
      }
    }
  }

  lemma CloseKeeps(s: State, k: nat)
    requires Inv(s) && k in s.closers && s.closers[k].Took?
    ensures Inv(CloseMove(s, k))
  {
    var s' := CloseMove(s, k);
    var held := s.closers[k].session;
    forall x: nat
      ensures Taken(s', x) == (Taken(s, x) && held != Some(x))
    {
      if Taken(s, x) && held != Some(x) {
        var j :| j in s.closers && s.closers[j].Took? && s.closers[j].session == Some(x);
        assert s'.closers[j] == s.closers[j];
      }
    }
    assert forall x: nat :: Held(s', x) == Held(s, x);
    if held.Some? {
      TakenAlone(s, k, held.value);
    }
  }

  /** A session `Close` has taken out is in nobody else's hands. */
  lemma TakenAlone(s: State, k: nat, x: nat)
    requires Inv(s) && k in s.closers && s.closers[k].Took? && s.closers[k].session == Some(x)
    ensures Taken(s, x) && !Held(s, x) && s.sh.session != Some(x)
  {
    forall c | c in s.callers
      ensures s.callers[c].pc.Holds() != Some(x)
    {
      if s.callers[c].pc.Holds() == Some(x) { HeldAlone(s, c, x); }
    }
  }

  lemma CancelKeeps(s: State, k: nat)
    requires Inv(s) && k in s.closers && s.closers[k].Cancelling?
    ensures Inv(CancelMove(s, k))
  {
    var s' := CancelMove(s, k);
    forall x: nat
      ensures Owned(s', x) == Owned(s, x)
    {
      assert Held(s', x) == Held(s, x);
      if Taken(s, x) {
        var j :| j in s.closers && s.closers[j].Took? && s.closers[j].session == Some(x);
        assert s'.closers[j] == s.closers[j];
      }
    }
  }

  lemma StepKeeps(s: State, l: Label)
    requires Inv(s)
    ensures Inv(Step(s, l))
  {
    if Step(s, l) == s {
    } else if l.Stop? {
      StopKeeps(s);
    } else if l.CloseTake? {
      TakeKeeps(s, l.k);
    } else if l.CloseSession? {
      CloseKeeps(s, l.k);
    } else if l.CloseCancel? {
      CancelKeeps(s, l.k);
    } else if l.Arrive? {
      ArriveKeeps(s, l.c);
    } else {
      CallerKeeps(s, l);
    }
  }

  lemma {:induction false} AlwaysInv(schedule: seq<Label>)
    ensures Inv(Exec(schedule))
  {
    if schedule != [] {
      AlwaysInv(schedule[..|schedule| - 1]);
      StepKeeps(Exec(schedule[..|schedule| - 1]), schedule[|schedule| - 1]);
    }
  }

  // ---------------------------------------------------------------- what every schedule guarantees

  /** At most one construction is in flight, and a caller that has one is the one the channel announces. */
  lemma OneConstruction(schedule: seq<Label>, c: nat, d: nat)
    requires var s := Exec(schedule);
             && c in s.callers && s.callers[c].pc.Owns().Some?
             && d in s.callers && s.callers[d].pc.Owns().Some?
    ensures c == d && Exec(schedule).sh.starting == Exec(schedule).callers[c].pc.Owns()
    ensures Exec(schedule).sh.session.None?
  {
    AlwaysInv(schedule);
  }

  /** Once start-up is stopped, no later step publishes a session. */
  lemma NothingPublishedAfterStop(schedule: seq<Label>, l: Label)
    requires Exec(schedule).sh.stopping
    ensures var s := Exec(schedule);
            var s' := Step(s, l);
            s'.sh.stopping && (s'.sh.session == s.sh.session || s'.sh.session.None?)
  {
    AlwaysInv(schedule);
    StoppedStep(Exec(schedule), l);
  }

  lemma StoppedStep(s: State, l: Label)
    requires SingleFlight(s) && s.sh.stopping
    ensures var s' := Step(s, l); s'.sh.stopping && (s'.sh.session == s.sh.session || s'.sh.session.None?)
  {
    if l.CommitStep? && l.c in s.callers && s.callers[l.c].pc.Checked? {
      assert s.callers[l.c].pc.Owns().Some?;
    }
  }

  /** The context of a published session stays live until `Close` has closed the session, whatever happens to the
  request that started it. */
  lemma PublishedContextLives(schedule: seq<Label>, x: nat)
    requires var s := Exec(schedule); s.sh.session == Some(x) || Taken(s, x)
    ensures var s := Exec(schedule); x in s.made && s.made[x] !in s.cancelled && s.closes[x] == 0
  {
    AlwaysInv(schedule);
    var s := Exec(schedule);
    if Taken(s, x) {
      var k :| k in s.closers && s.closers[k].Took? && s.closers[k].session == Some(x);
      assert Reserved(s, s.closers[k].cancel.value);
    }
  }

  /** A caller that was handed a session was handed one the factory made, and nobody closes a session twice. */
  lemma ClosedAtMostOnce(schedule: seq<Label>, x: nat)
    ensures Exec(schedule).closes[x] <= 1
    ensures Exec(schedule).closes[x] == 1 ==> x in Exec(schedule).made
  {
    AlwaysInv(schedule);
  }

  predicate Drained(s: State) {
    forall c | c in s.callers :: s.callers[c].pc.Done()
  }

  function ShutDown(s: State, k: nat): State {
    Step(Step(Step(s, CloseTake(k)), CloseSession(k)), CloseCancel(k))
  }

  /** No leak: in every reachable state where no call is under way, nothing is published and every `Close` has finished,
  each session the factory ever returned has been closed exactly once. */
  lemma NoLeak(schedule: seq<Label>)
    requires var s := Exec(schedule);
             Drained(s) && s.sh.session.None? && forall j | j in s.closers :: s.closers[j].Finished?
    ensures forall x | x in Exec(schedule).made :: Exec(schedule).closes[x] == 1
  {
    AlwaysInv(schedule);
    AllClosed(Exec(schedule));
  }

  /** One more `Close` after a drain leads there. */
  lemma CloseEmpties(schedule: seq<Label>, k: nat)
    requires var s := Exec(schedule);
             Drained(s) && k !in s.closers && forall j | j in s.closers :: s.closers[j].Finished?
    ensures var s := ShutDown(Exec(schedule), k);
            s.sh.session.None? && forall x | x in s.made :: s.closes[x] == 1
  {
    var s := Exec(schedule);
    var run := schedule + [CloseTake(k), CloseSession(k), CloseCancel(k)];
    var n := |schedule|;
    assert run[..n] == schedule && run[..n + 1][..n] == schedule;
    assert run[..n + 2][..n + 1] == run[..n + 1] && run[..n + 3][..n + 2] == run[..n + 2] && run[..n + 3] == run;
    assert Exec(run[..n + 1]) == Step(s, CloseTake(k));
    assert Exec(run[..n + 2]) == Step(Exec(run[..n + 1]), CloseSession(k));
    assert Exec(run) == ShutDown(s, k);
    ShutDownShape(s, k);
    NoLeak(run);
  }

  lemma ShutDownShape(s: State, k: nat)
    requires Drained(s) && k !in s.closers && forall j | j in s.closers :: s.closers[j].Finished?
    ensures var s' := ShutDown(s, k);
            Drained(s') && s'.sh.session.None? && forall j | j in s'.closers :: s'.closers[j].Finished?
  {
  }

  lemma AllClosed(s: State)
    requires Inv(s) && Drained(s) && s.sh.session.None? && forall j | j in s.closers :: s.closers[j].Finished?
    ensures forall x | x in s.made :: s.closes[x] == 1
  {
    assert forall x | x in s.made :: !Owned(s, x);
  }

  /** No call is stuck: while some call is unfinished, a step of a caller or a factory return changes the state. */
  lemma Progress(schedule: seq<Label>, c: nat)
    requires var s := Exec(schedule); c in s.callers && !s.callers[c].pc.Done()
    ensures exists l :: ByCaller(l) && !l.CancelRequest? && !l.GiveUp? && Step(Exec(schedule), l) != Exec(schedule)
  {
    AlwaysInv(schedule);
    var s := Exec(schedule);
    var l := NextLabel(s, c);
    assert ByCaller(l) && !l.CancelRequest? && !l.GiveUp? && Step(s, l) != s;
  }

  lemma NextLabel(s: State, c: nat) returns (l: Label)
    requires SingleFlight(s) && c in s.callers && !s.callers[c].pc.Done()
    ensures ByCaller(l) && !l.CancelRequest? && !l.GiveUp? && Step(s, l) != s
  {
    var pc := s.callers[c].pc;
    if pc.Top? {
      l := Lock(c);
      assert !LockStep(s, c).callers[c].pc.Top?;
    } else if pc.Waiting? {
      if s.sh.starting == Some(pc.start) {
        var d :| d in s.callers && s.callers[d].pc.Owns().Some?;
        l := OwnerLabel(s, d);
      } else {
        l := Wake(c);
        assert Step(s, l).callers[c].pc.Top?;
      }
    } else {
      l := OwnerLabel(s, c);
    }
  }

  lemma OwnerLabel(s: State, c: nat) returns (l: Label)
    requires c in s.callers && s.callers[c].pc.Owns().Some?
    ensures ByCaller(l) && !l.CancelRequest? && !l.GiveUp? && Step(s, l) != s
  {
    var me := s.callers[c];
    match me.pc
    case Constructing(n) =>
      l := FactoryReturns(c, Made(None, true));
      assert Step(s, l).callers[c].pc.Built?;
    case Built(_, _) =>
      if me.bridge == Firing {
        l := Forward(c);
        assert Step(s, l).callers[c].bridge == Over;
      } else {
        l := JoinBridge(c);
        assert Step(s, l).callers[c].pc.Joined?;
      }
    case Joined(_, _) =>
      l := CheckRequest(c);
      assert Step(s, l).callers[c].pc.Checked?;
    case Checked(_, _) =>
      l := CommitStep(c);
      assert !Step(s, l).callers[c].pc.Checked?;
    case Cleaning(_, _) =>
      l := CleanUp(c);
      assert Step(s, l).callers[c].pc.Releasing?;
    case Releasing(_) =>
      l := ReleaseStep(c);
      assert Step(s, l).callers[c].pc.Failed?;
  }

  // ---------------------------------------------------------------- every call ends

  /** How far a call is from its end. A request's cancellation adds the two moves of its bridge. */
  function Distance(me: Caller): int {
    var phase :=
      match me.pc
      case Top => 7
      case Waiting(_) => 7
      case Constructing(_) => 6
      case Built(_, _) => 5
      case Joined(_, _) => 4
      case Checked(_, _) => 3
      case Cleaning(_, _) => 2
      case Releasing(_) => 1
      case _ => 0;
    3 * phase + (match me.bridge case Armed => 2 case Firing => 1 case Over => 0)
  }

  function Distances(callers: map<nat, Caller>): map<nat, int> {
    map c | c in callers :: Distance(callers[c])
  }

  /** What a call outside a construction may still do before somebody's construction ends: wake up, and look again. */
  function Retry(me: Caller, starting: Option<nat>): int {
    if me.pc.Top? then 1 else if me.pc.Waiting? && starting != Some(me.pc.start) then 2 else 0
  }

  function Retries(callers: map<nat, Caller>, starting: Option<nat>): map<nat, int> {
    map c | c in callers :: Retry(callers[c], starting)
  }

  /** Lexicographic: work on constructions first, retries second. */
  ghost predicate Nearer(s': State, s: State) {
    var a', a := Sum(Distances(s'.callers)), Sum(Distances(s.callers));
    a' < a || (a' == a && Sum(Retries(s'.callers, s'.sh.starting)) < Sum(Retries(s.callers, s.sh.starting)))
  }

  lemma DistanceMoves(callers: map<nat, Caller>, c: nat, me: Caller)
    requires c in callers
    ensures Sum(Distances(callers[c := me])) == Sum(Distances(callers)) - Distance(callers[c]) + Distance(me)
  {
    assert Distances(callers[c := me]) == Distances(callers)[c := Distance(me)];
    SumUpdate(Distances(callers), c, Distance(me));
  }

  lemma RetryMoves(callers: map<nat, Caller>, c: nat, me: Caller, starting: Option<nat>)
    requires c in callers
    ensures Sum(Retries(callers[c := me], starting))
         == Sum(Retries(callers, starting)) - Retry(callers[c], starting) + Retry(me, starting)
  {
    assert Retries(callers[c := me], starting) == Retries(callers, starting)[c := Retry(me, starting)];
    SumUpdate(Retries(callers, starting), c, Retry(me, starting));
  }

  /** One call moved: nearer its end, or only its retries fell. */
  predicate Moved(s: State, s': State, c: nat) {
    && c in s.callers && c in s'.callers && s'.callers == s.callers[c := s'.callers[c]]
    && (|| Distance(s'.callers[c]) < Distance(s.callers[c])
        || (&& Distance(s'.callers[c]) == Distance(s.callers[c]) && s'.sh.starting == s.sh.starting
            && Retry(s'.callers[c], s.sh.starting) < Retry(s.callers[c], s.sh.starting)))
  }

  lemma MovedNearer(s: State, s': State, c: nat)
    requires Moved(s, s', c)
    ensures Nearer(s', s)
  {
    DistanceMoves(s.callers, c, s'.callers[c]);
    RetryMoves(s.callers, c, s'.callers[c], s.sh.starting);
  }

  lemma OutsideMoves(s: State, l: Label)
    requires l.GiveUp? || l.Lock? || l.Wake?
    requires l.c in s.callers && CallerStep(s, l) != s
    ensures Moved(s, CallerStep(s, l), l.c)
  {
  }

  lemma BridgeMoves(s: State, l: Label)
    requires l.Fire? || l.Forward? || l.JoinBridge? || l.FactoryReturns?
    requires l.c in s.callers && CallerStep(s, l) != s
    ensures Moved(s, CallerStep(s, l), l.c)
  {
  }

  lemma OwnerMoves(s: State, l: Label)
    requires l.CheckRequest? || l.CommitStep? || l.CleanUp? || l.ReleaseStep?
    requires l.c in s.callers && CallerStep(s, l) != s
    ensures Moved(s, CallerStep(s, l), l.c)
  {
  }

  /** Every step of a call that changes anything brings the calls nearer their end, except that its request is
  cancelled. Both sums are bounded below, so with no new arrivals every call ends. */
  lemma CallsCountDown(s: State, l: Label)
    requires ByCaller(l) && !l.CancelRequest? && Step(s, l) != s
    ensures Nearer(Step(s, l), s)
    ensures Sum(Distances(s.callers)) >= 0 && Sum(Retries(s.callers, s.sh.starting)) >= 0
  {
    if l.GiveUp? || l.Lock? || l.Wake? {
      OutsideMoves(s, l);
    } else if l.Fire? || l.Forward? || l.JoinBridge? || l.FactoryReturns? {
      BridgeMoves(s, l);
    } else {
      OwnerMoves(s, l);
    }
    MovedNearer(s, Step(s, l), l.c);
    SumNonNegative(Distances(s.callers));
    SumNonNegative(Retries(s.callers, s.sh.starting));
  }
}
