/** One journaled refinement round: baseline, proposal, candidate probes, composition, composed probe.

Everything the round cannot control (what a probe or the improver returns, whether a journal write persists, whether the
context is cancelled) is an `Env`, asked by position in the run. `trace` is the sequence of journal writes and external
calls the round made. */
module RefineRound {
  import opened Experiment

  datatype EventState = Started | Completed | Broken | Froze

  datatype Event = Event(stage: string, state: EventState, skipped: seq<string>)

  datatype Action =
    | Record(event: Event, persisted: bool)
    | Probe(trial: Trial)
    | Propose(views: seq<int>)
    | Compose(views: seq<int>)

  /** A probe's reply: whether it named a record, whether it failed, and the evidence it projects. */
  datatype ProbeReply = ProbeReply(recorded: bool, failed: bool, evidence: int)

  datatype ImproverReply = ImproverReply(failed: bool, noChange: bool, experiment: Spec)

  datatype Env = Env(
    persists: nat -> bool,
    cancelled: nat -> bool,
    probe: nat -> ProbeReply,
    propose: ImproverReply,
    compose: ImproverReply)

  const GENERAL := "general"
  const DOMAIN := "domain"
  const COMPOSED := "composed"

  /** What the improver promises: a decision that was validated for the stage's labels. */
  predicate Validated(r: ImproverReply, labels: seq<string>) {
    r.failed || r.noChange || (r.experiment.repeats == 1 && ProposesExactly(r.experiment, labels))
  }

  predicate Promised(env: Env) {
    Validated(env.propose, [GENERAL, DOMAIN]) && Validated(env.compose, [COMPOSED])
  }

  function BaselineTrial(): Trial {
    Trial(BASELINE, "", 1)
  }

  function PlannedDrivers(): seq<string> {
    ["zarlcode-harness-baseline-r1", "zarlcode-harness-general-r1", "zarlcode-harness-domain-r1",
     "zarlcode-harness-composed-r1"]
  }

  // ---------------------------------------------------------------- what a trace may look like

  predicate External(a: Action) {
    !a.Record?
  }

  function StageOf(a: Action): string
    requires External(a)
  {
    match a
    case Probe(trial) => DriverName(trial)
    case Propose(_) => "propose"
    case Compose(_) => "compose"
  }

  /** How the call made at position `i` ended. */
  function Outcome(env: Env, a: Action, i: nat): EventState
    requires External(a)
  {
    var failed :=
      match a
      case Probe(_) => env.probe(i).failed
      case Propose(_) => env.propose.failed
      case Compose(_) => env.compose.failed;
    if failed then Broken else Completed
  }

  /** The external call at `i` stands between its persisted start and a write of its true outcome. */
  predicate BracketedAt(env: Env, trace: seq<Action>, i: nat)
    requires i < |trace| && External(trace[i])
  {
    && 0 < i && i + 1 < |trace|
    && trace[i - 1] == StartOf(StageOf(trace[i]), true)
    && trace[i + 1].Record?
    && trace[i + 1].event == Event(StageOf(trace[i]), Outcome(env, trace[i], i), [])
  }

  function StartOf(stage: string, persisted: bool): Action {
    Record(Event(stage, Started, []), persisted)
  }

  predicate Bracketed(env: Env, trace: seq<Action>) {
    forall i | 0 <= i < |trace| && External(trace[i]) :: BracketedAt(env, trace, i)
  }

  predicate AllPersisted(trace: seq<Action>) {
    forall i | 0 <= i < |trace| && trace[i].Record? :: trace[i].persisted
  }

  /** Nothing at all happens after a journal write that did not persist. */
  predicate JournalStops(trace: seq<Action>) {
    trace == [] || AllPersisted(trace[..|trace| - 1])
  }

  predicate Freezes(a: Action) {
    a.Record? && a.event.state == Froze && a.persisted
  }

  predicate Unfrozen(trace: seq<Action>) {
    forall i | 0 <= i < |trace| :: !Freezes(trace[i])
  }

  predicate Consults(a: Action) {
    a.Propose? || a.Compose?
  }

  /** Every improver call was shown the evidence of exactly the probes that had completed, in order. */
  predicate Informed(env: Env, trace: seq<Action>) {
    forall i | 0 <= i < |trace| && Consults(trace[i]) :: trace[i].views == Gathered(env, trace[..i])
  }

  /** The drivers probed, in order. */
  function Executed(trace: seq<Action>): seq<string> {
    if trace == [] then []
    else
      var a := trace[|trace| - 1];
      Executed(trace[..|trace| - 1]) + (if a.Probe? then [DriverName(a.trial)] else [])
  }

  /** The records the probes named, in order. */
  function Named(env: Env, trace: seq<Action>): seq<string> {
    if trace == [] then []
    else
      var n := |trace| - 1;
      Named(env, trace[..n])
      + (if trace[n].Probe? && env.probe(n).recorded then [DriverName(trace[n].trial)] else [])
  }

  /** The evidence the successful probes returned, in order. */
  function Gathered(env: Env, trace: seq<Action>): seq<int> {
    if trace == [] then []
    else
      var n := |trace| - 1;
      Gathered(env, trace[..n]) + (if trace[n].Probe? && !env.probe(n).failed then [env.probe(n).evidence] else [])
  }

  function Consultations(trace: seq<Action>): nat {
    if trace == [] then 0
    else Consultations(trace[..|trace| - 1]) + (if Consults(trace[|trace| - 1]) then 1 else 0)
  }

  /** Why a round ends without freezing: cancelled, a write that did not persist, or a stage that failed. */
  predicate Halted(env: Env, trace: seq<Action>) {
    || env.cancelled(|trace|)
    || (trace != [] && trace[|trace| - 1].Record?
        && (!trace[|trace| - 1].persisted || trace[|trace| - 1].event.state == Broken))
  }

  // ---------------------------------------------------------------- one more action

  lemma ExtendCounts(trace: seq<Action>, a: Action)
    ensures Executed(trace + [a]) == Executed(trace) + (if a.Probe? then [DriverName(a.trial)] else [])
    ensures Consultations(trace + [a]) == Consultations(trace) + (if Consults(a) then 1 else 0)
  {
    assert (trace + [a])[..|trace|] == trace;
  }

  lemma ExtendNamed(env: Env, trace: seq<Action>, a: Action)
    ensures Named(env, trace + [a])
         == Named(env, trace) + (if a.Probe? && env.probe(|trace|).recorded then [DriverName(a.trial)] else [])
  {
    assert (trace + [a])[..|trace|] == trace;
  }

  lemma ExtendGathered(env: Env, trace: seq<Action>, a: Action)
    ensures Gathered(env, trace + [a])
         == Gathered(env, trace)
            + (if a.Probe? && !env.probe(|trace|).failed then [env.probe(|trace|).evidence] else [])
  {
    assert (trace + [a])[..|trace|] == trace;
  }

  /** A write leaves every count and collection as it is. */
  lemma ExtendByWrite(env: Env, trace: seq<Action>, a: Action)
    requires a.Record?
    ensures Executed(trace + [a]) == Executed(trace) && Consultations(trace + [a]) == Consultations(trace)
    ensures Named(env, trace + [a]) == Named(env, trace) && Gathered(env, trace + [a]) == Gathered(env, trace)
  {
    ExtendCounts(trace, a);
    ExtendNamed(env, trace, a);
    ExtendGathered(env, trace, a);
  }

  lemma ExtendInformed(env: Env, trace: seq<Action>, a: Action)
    requires Informed(env, trace)
    requires Consults(a) ==> a.views == Gathered(env, trace)
    ensures Informed(env, trace + [a])
  {
    var t := trace + [a];
    forall i | 0 <= i < |t| && Consults(t[i])
      ensures t[i].views == Gathered(env, t[..i])
    {
      assert t[..i] == trace[..i];
      assert i == |trace| ==> trace[..i] == trace;
    }
  }

  /** A write keeps every bracket and, while everything persisted, stops the journal only at the end. */
  lemma ExtendWrite(env: Env, trace: seq<Action>, a: Action)
    requires a.Record? && Bracketed(env, trace) && AllPersisted(trace)
    ensures Bracketed(env, trace + [a]) && JournalStops(trace + [a])
    ensures a.persisted ==> AllPersisted(trace + [a])
  {
    var t := trace + [a];
    forall i | 0 <= i < |t| && External(t[i])
      ensures BracketedAt(env, t, i)
    {
      assert BracketedAt(env, trace, i);
    }
    assert t[..|trace|] == trace;
  }

  /** Start, call and outcome of one stage. */
  function Bracket(env: Env, call: Action, at: nat, persisted: bool): seq<Action>
    requires External(call)
  {
    [StartOf(StageOf(call), true), call, Record(Event(StageOf(call), Outcome(env, call, at), []), persisted)]
  }

  lemma ExtendBracket(env: Env, trace: seq<Action>, call: Action, persisted: bool)
    requires External(call) && Bracketed(env, trace) && AllPersisted(trace)
    ensures var t := trace + Bracket(env, call, |trace| + 1, persisted);
            Bracketed(env, t) && JournalStops(t) && (persisted ==> AllPersisted(t))
  {
    var n := |trace|;
    var t := trace + Bracket(env, call, n + 1, persisted);
    forall i | 0 <= i < |t| && External(t[i])
      ensures BracketedAt(env, t, i)
    {
      if i < n {
        assert BracketedAt(env, trace, i);
      }
    }
    assert t[..n + 2] == trace + [StartOf(StageOf(call), true), call];
  }

  // ---------------------------------------------------------------- the planned names

  /** The stage names the trials of a validated round bear are the planned drivers. */
  predicate IsPlan(planned: seq<string>) {
    && |planned| == 4
    && planned[0] == DriverName(BaselineTrial())
    && planned[1] == StageName(GENERAL) && planned[2] == StageName(DOMAIN) && planned[3] == StageName(COMPOSED)
  }

  lemma PlannedNames()
    ensures IsPlan(PlannedDrivers())
  {
    StageNameIs(BASELINE);
    assert StageName(BASELINE) == "zarlcode-harness-baseline-r1";
    assert StageName(GENERAL) == "zarlcode-harness-general-r1";
    assert StageName(DOMAIN) == "zarlcode-harness-domain-r1";
    assert StageName(COMPOSED) == "zarlcode-harness-composed-r1";
  }

  lemma ProposedTrials(spec: Spec, labels: seq<string>)
    requires spec.repeats == 1 && ProposesExactly(spec, labels)
    ensures var ts := TrialList(spec, 1);
            |ts| == |labels| + 1 && forall i | 0 <= i < |labels| :: DriverName(ts[i + 1]) == StageName(labels[i])
  {
    StageTrialsExactly(spec, labels);
    var ts := TrialList(spec, 1);
    forall i | 0 <= i < |labels|
      ensures DriverName(ts[i + 1]) == StageName(labels[i])
    {
      var k := i + 1;
      assert ts[k].tag == labels[k - 1] && ts[k].repeat == 1;
      StageNameSettles(ts[k], labels[i]);
    }
  }

  // ---------------------------------------------------------------- the round on values

  datatype Progress = Progress(trace: seq<Action>, records: seq<string>, views: seq<int>, frozen: bool, noChange: bool)

  const FIRST := Progress([], [], [], false, false)

  /** What holds of a round between two stages and after its last. */
  predicate Sound(env: Env, p: Progress) {
    && Bracketed(env, p.trace) && JournalStops(p.trace) && Informed(env, p.trace)
    && p.records == Named(env, p.trace) && p.views == Gathered(env, p.trace)
  }

  /** A round that may go on. */
  predicate Open(env: Env, p: Progress) {
    Sound(env, p) && AllPersisted(p.trace) && Unfrozen(p.trace) && !p.frozen && !p.noChange
  }

  /** A round that ended without freezing. */
  predicate Abandoned(env: Env, p: Progress) {
    Sound(env, p) && Unfrozen(p.trace) && !p.frozen && !p.noChange && Halted(env, p.trace)
  }

  /** A stage around `call`: nothing when cancelled, a lone start when the start does not persist, otherwise a
  bracket. */
  function StageStep(env: Env, p: Progress, call: Action): (Progress, bool)
    requires External(call)
  {
    var n := |p.trace|;
    if env.cancelled(n) then (p, false)
    else if !env.persists(n) then (p.(trace := p.trace + [StartOf(StageOf(call), false)]), false)
    else
      var persisted := env.persists(n + 2);
      var done := Outcome(env, call, n + 1) == Completed;
      var recorded := call.Probe? && env.probe(n + 1).recorded;
      var viewed := call.Probe? && done;
      (p.(trace := p.trace + Bracket(env, call, n + 1, persisted),
          records := if recorded then p.records + [StageOf(call)] else p.records,
          views := if viewed then p.views + [env.probe(n + 1).evidence] else p.views),
       done && persisted)
  }

  function FinishStep(env: Env, p: Progress, skipped: seq<string>): (Progress, bool) {
    var ok := env.persists(|p.trace|);
    var q := p.(trace := p.trace + [Record(Event("round", Froze, skipped), ok)]);
    (if ok then q.(frozen := true, noChange := |skipped| != 0) else q, ok)
  }

  /** A bracket is one call between two writes: only the call adds to what is counted and gathered. */
  lemma BracketByOne(env: Env, trace: seq<Action>, call: Action, persisted: bool)
    returns (t1: seq<Action>, t2: seq<Action>)
    requires External(call)
    ensures |t1| == |trace| + 1 && t2 == t1 + [call]
    ensures Executed(t1) == Executed(trace) && Consultations(t1) == Consultations(trace)
    ensures Named(env, t1) == Named(env, trace) && Gathered(env, t1) == Gathered(env, trace)
    ensures var t := trace + Bracket(env, call, |trace| + 1, persisted);
            && Executed(t) == Executed(t2) && Consultations(t) == Consultations(t2)
            && Named(env, t) == Named(env, t2) && Gathered(env, t) == Gathered(env, t2)
  {
    var b := Bracket(env, call, |trace| + 1, persisted);
    t1 := trace + [b[0]];
    t2 := t1 + [call];
    ExtendByWrite(env, trace, b[0]);
    ExtendByWrite(env, t2, b[2]);
    assert trace + b == t2 + [b[2]];
  }

  lemma BracketCounts(env: Env, trace: seq<Action>, call: Action, persisted: bool)
    requires External(call)
    ensures var t := trace + Bracket(env, call, |trace| + 1, persisted);
            && Executed(t) == Executed(trace) + (if call.Probe? then [DriverName(call.trial)] else [])
            && Consultations(t) == Consultations(trace) + (if Consults(call) then 1 else 0)
  {
    var t1, _ := BracketByOne(env, trace, call, persisted);
    ExtendCounts(t1, call);
  }

  lemma BracketNamed(env: Env, trace: seq<Action>, call: Action, persisted: bool)
    requires External(call)
    ensures Named(env, trace + Bracket(env, call, |trace| + 1, persisted))
         == Named(env, trace)
            + (if call.Probe? && env.probe(|trace| + 1).recorded then [DriverName(call.trial)] else [])
  {
    var t1, _ := BracketByOne(env, trace, call, persisted);
    ExtendNamed(env, t1, call);
  }

  lemma BracketGathered(env: Env, trace: seq<Action>, call: Action, persisted: bool)
    requires External(call)
    ensures Gathered(env, trace + Bracket(env, call, |trace| + 1, persisted))
         == Gathered(env, trace)
            + (if call.Probe? && !env.probe(|trace| + 1).failed then [env.probe(|trace| + 1).evidence] else [])
  {
    var t1, _ := BracketByOne(env, trace, call, persisted);
    ExtendGathered(env, t1, call);
  }

  lemma BracketInformed(env: Env, trace: seq<Action>, call: Action, persisted: bool)
    requires External(call) && Informed(env, trace)
    requires Consults(call) ==> call.views == Gathered(env, trace)
    ensures Informed(env, trace + Bracket(env, call, |trace| + 1, persisted))
  {
    var b := Bracket(env, call, |trace| + 1, persisted);
    ExtendByWrite(env, trace, b[0]);
    ExtendInformed(env, trace, b[0]);
    ExtendInformed(env, trace + [b[0]], call);
    ExtendInformed(env, trace + [b[0]] + [call], b[2]);
    assert trace + b == trace + [b[0]] + [call] + [b[2]];
  }

  /** A write changes none of what is counted or gathered, and while everything persisted it keeps the trace sound. */
  lemma WriteSound(env: Env, trace: seq<Action>, a: Action)
    requires a.Record? && Bracketed(env, trace) && AllPersisted(trace) && Informed(env, trace)
    ensures var t := trace + [a];
            && Bracketed(env, t) && JournalStops(t) && Informed(env, t)
            && Executed(t) == Executed(trace) && Consultations(t) == Consultations(trace)
            && Named(env, t) == Named(env, trace) && Gathered(env, t) == Gathered(env, trace)
  {
    ExtendWrite(env, trace, a);
    ExtendInformed(env, trace, a);
    ExtendByWrite(env, trace, a);
  }

  lemma LostWriteHalts(env: Env, trace: seq<Action>, a: Action)
    requires a.Record? && !a.persisted && Unfrozen(trace)
    ensures Unfrozen(trace + [a]) && Halted(env, trace + [a])
  {
    var t := trace + [a];
    assert t[|t| - 1] == a;
  }

  /** A stage that succeeds leaves the round open, one that does not abandons it; either way the round stays sound. */
  lemma StageKeeps(env: Env, p: Progress, call: Action)
    requires Open(env, p) && External(call) && (Consults(call) ==> call.views == p.views)
    ensures var (q, ok) := StageStep(env, p, call);
            && (if ok then Open(env, q) && Outcome(env, call, |p.trace| + 1) == Completed else Abandoned(env, q))
            && Counted(p, q, call, ok)
  {
    var n := |p.trace|;
    if env.cancelled(n) {
    } else if !env.persists(n) {
      var a := StartOf(StageOf(call), false);
      WriteSound(env, p.trace, a);
      LostWriteHalts(env, p.trace, a);
    } else {
      FullStageKeeps(env, p, call);
    }
  }

  /** How a stage moves the counts. */
  predicate Counted(p: Progress, q: Progress, call: Action, ok: bool) {
    && (ok ==> Executed(q.trace) == Executed(p.trace) + (if call.Probe? then [DriverName(call.trial)] else []))
    && |Executed(q.trace)| <= |Executed(p.trace)| + (if call.Probe? then 1 else 0)
    && Consultations(q.trace) <= Consultations(p.trace) + (if Consults(call) then 1 else 0)
  }

  lemma FullStageKeeps(env: Env, p: Progress, call: Action)
    requires Open(env, p) && External(call) && (Consults(call) ==> call.views == p.views)
    requires !env.cancelled(|p.trace|) && env.persists(|p.trace|)
    ensures var (q, ok) := StageStep(env, p, call);
            && (if ok then Open(env, q) && Outcome(env, call, |p.trace| + 1) == Completed else Abandoned(env, q))
            && Counted(p, q, call, ok)
  {
    var persisted := env.persists(|p.trace| + 2);
    FullStageSound(env, p, call);
    BracketEnds(env, p.trace, call, persisted);
    ExtendBracket(env, p.trace, call, persisted);
  }

  lemma FullStageSound(env: Env, p: Progress, call: Action)
    requires Sound(env, p) && AllPersisted(p.trace) && External(call) && (Consults(call) ==> call.views == p.views)
    requires !env.cancelled(|p.trace|) && env.persists(|p.trace|)
    ensures var (q, ok) := StageStep(env, p, call);
            Sound(env, q) && Counted(p, q, call, ok)
  {
    var persisted := env.persists(|p.trace| + 2);
    ExtendBracket(env, p.trace, call, persisted);
    BracketCounts(env, p.trace, call, persisted);
    BracketNamed(env, p.trace, call, persisted);
    BracketGathered(env, p.trace, call, persisted);
    BracketInformed(env, p.trace, call, persisted);
  }

  lemma BracketEnds(env: Env, trace: seq<Action>, call: Action, persisted: bool)
    requires External(call) && Unfrozen(trace)
    ensures var t := trace + Bracket(env, call, |trace| + 1, persisted);
            Unfrozen(t) && (!persisted || Outcome(env, call, |trace| + 1) == Broken ==> Halted(env, t))
  {
    var b := Bracket(env, call, |trace| + 1, persisted);
    var t := trace + b;
    assert t[|t| - 1] == b[2];
    forall i | 0 <= i < |t|
      ensures !Freezes(t[i])
    {
      if i >= |trace| {
        assert t[i] == b[i - |trace|];
      }
    }
  }

  lemma FinishKeeps(env: Env, p: Progress, skipped: seq<string>)
    requires Open(env, p)
    ensures var (q, ok) := FinishStep(env, p, skipped);
            && Sound(env, q) && (!ok ==> Abandoned(env, q))
            && Executed(q.trace) == Executed(p.trace) && Consultations(q.trace) == Consultations(p.trace)
  {
    var a := Record(Event("round", Froze, skipped), env.persists(|p.trace|));
    WriteSound(env, p.trace, a);
    if !a.persisted {
      LostWriteHalts(env, p.trace, a);
    }
  }

  // ---------------------------------------------------------------- the round on the heap

  /** What a finished round promises. It freezes exactly when it succeeds, and then the probes it executed and the
  drivers it journaled as skipped are together the planned drivers, in order. */
  predicate Finished(env: Env, p: Progress, ok: bool, planned: seq<string>) {
    && Sound(env, p)
    && |Executed(p.trace)| <= 4 && Consultations(p.trace) <= 2
    && ok == p.frozen
    && if ok then Frozen(p, planned) else Abandoned(env, p)
  }

  predicate Frozen(p: Progress, planned: seq<string>) {
    && |p.trace| > 0 && Freezes(p.trace[|p.trace| - 1])
    && Executed(p.trace) + p.trace[|p.trace| - 1].event.skipped == planned
    && p.noChange == (p.trace[|p.trace| - 1].event.skipped != [])
  }

  /** Freezing after the first `done` planned drivers ran, the rest being skipped. */
  lemma FinishFinishes(env: Env, p: Progress, done: nat, planned: seq<string>)
    requires |planned| == 4 && At(env, p, planned, done, 2)
    ensures var (q, ok) := FinishStep(env, p, planned[done..]);
            Finished(env, q, ok, planned)
  {
    FinishKeeps(env, p, planned[done..]);
    assert planned[..done] + planned[done..] == planned;
  }

  /** The first `done` planned drivers ran, and the improver was asked at most `calls` times. */
  predicate At(env: Env, p: Progress, planned: seq<string>, done: nat, calls: nat) {
    Open(env, p) && done <= |planned| && Executed(p.trace) == planned[..done] && Consultations(p.trace) <= calls
  }

  lemma ProbeNext(env: Env, p: Progress, trial: Trial, planned: seq<string>, done: nat, calls: nat)
    requires |planned| == 4 && done < 4 && calls <= 2
    requires At(env, p, planned, done, calls) && DriverName(trial) == planned[done]
    ensures var (q, ok) := StageStep(env, p, Probe(trial));
            if ok then At(env, q, planned, done + 1, calls) else Finished(env, q, false, planned)
  {
    StageKeeps(env, p, Probe(trial));
    assert planned[..done + 1] == planned[..done] + [planned[done]];
  }

  lemma ConsultNext(env: Env, p: Progress, call: Action, planned: seq<string>, done: nat, calls: nat)
    requires |planned| == 4 && calls < 2 && Consults(call) && call.views == p.views
    requires At(env, p, planned, done, calls)
    ensures var (q, ok) := StageStep(env, p, call);
            if ok then At(env, q, planned, done, calls + 1) && Outcome(env, call, 0) == Completed
            else Finished(env, q, false, planned)
  {
    StageKeeps(env, p, call);
  }

  /** The candidates of a validated proposal bear the second and third planned name. */
  lemma CandidatesPlanned(env: Env, planned: seq<string>)
    requires Promised(env) && IsPlan(planned) && !env.propose.failed && !env.propose.noChange
    ensures var ts := TrialList(env.propose.experiment, env.propose.experiment.repeats);
            |ts| == 3 && forall k | 1 <= k < 3 :: DriverName(ts[k]) == planned[k]
  {
    var ts, labels := TrialList(env.propose.experiment, 1), [GENERAL, DOMAIN];
    ProposedTrials(env.propose.experiment, labels);
    assert DriverName(ts[0 + 1]) == StageName(labels[0]) && DriverName(ts[1 + 1]) == StageName(labels[1]);
  }

  /** The candidate of a validated composition bears the last. */
  lemma CompositionPlanned(env: Env, planned: seq<string>)
    requires Promised(env) && IsPlan(planned) && !env.compose.failed && !env.compose.noChange
    ensures var ts := TrialList(env.compose.experiment, env.compose.experiment.repeats);
            |ts| == 2 && DriverName(ts[1]) == planned[3]
  {
    var ts, labels := TrialList(env.compose.experiment, 1), [COMPOSED];
    ProposedTrials(env.compose.experiment, labels);
    assert DriverName(ts[0 + 1]) == StageName(labels[0]);
  }

  class Refinement {
    var trace: seq<Action>
    var records: seq<string>
    var views: seq<int>
    var frozen: bool
    var noChange: bool

    ghost function Value(): Progress
      reads this
    {
      Progress(trace, records, views, frozen, noChange)
    }

    constructor ()
      ensures Value() == FIRST
    {
      trace, records, views, frozen, noChange := [], [], [], false, false;
    }

    method Write(env: Env, event: Event) returns (ok: bool)
      modifies this`trace
      ensures trace == old(trace) + [Record(event, ok)]
      ensures ok == env.persists(old(|trace|))
    {
      ok := env.persists(|trace|);
      trace := trace + [Record(event, ok)];
    }

    /** One probe, between its journal writes. */
    method RunProbe(env: Env, trial: Trial) returns (ok: bool)
      modifies this
      ensures (Value(), ok) == StageStep(env, old(Value()), Probe(trial))
    {
      if env.cancelled(|trace|) { return false; }
      var stage := DriverName(trial);
      ok := Write(env, Event(stage, Started, []));
      if !ok { return; }
      var reply := env.probe(|trace|);
      trace := trace + [Probe(trial)];
      if reply.recorded { records := records + [stage]; }
      if reply.failed {
        ok := Write(env, Event(stage, Broken, []));
        assert trace == old(trace) + Bracket(env, Probe(trial), old(|trace|) + 1, ok);
        return false;
      }
      views := views + [reply.evidence];
      ok := Write(env, Event(stage, Completed, []));
      assert trace == old(trace) + Bracket(env, Probe(trial), old(|trace|) + 1, ok);
    }

    /** One improver call, between its journal writes. */
    method Consult(env: Env, call: Action) returns (ok: bool)
      requires Consults(call)
      modifies this`trace
      ensures (Value(), ok) == StageStep(env, old(Value()), call)
    {
      if env.cancelled(|trace|) { return false; }
      var stage := StageOf(call);
      ok := Write(env, Event(stage, Started, []));
      if !ok { return; }
      var reply := if call.Propose? then env.propose else env.compose;
      trace := trace + [call];
      ok := Write(env, Event(stage, if reply.failed then Broken else Completed, []));
      assert trace == old(trace) + Bracket(env, call, old(|trace|) + 1, ok);
      if reply.failed { return false; }
    }

    /** Freezes the round, naming what was skipped. */
    method Finish(env: Env, skipped: seq<string>) returns (ok: bool)
      modifies this
      ensures (Value(), ok) == FinishStep(env, old(Value()), skipped)
    {
      ok := Write(env, Event("round", Froze, skipped));
      if !ok { return; }
      frozen := true;
      noChange := |skipped| != 0;
    }

    /** A planned probe. */
    method ProbePlanned(env: Env, trial: Trial, planned: seq<string>, done: nat, calls: nat) returns (ok: bool)
      requires |planned| == 4 && done < 4 && calls <= 2
      requires At(env, Value(), planned, done, calls) && DriverName(trial) == planned[done]
      modifies this
      ensures if ok then At(env, Value(), planned, done + 1, calls) else Finished(env, Value(), false, planned)
    {
      ProbeNext(env, Value(), trial, planned, done, calls);
      ok := RunProbe(env, trial);
    }

    /** The whole round. */
    method Run(env: Env) returns (ok: bool)
      requires Promised(env) && Value() == FIRST
      modifies this
      ensures Finished(env, Value(), ok, PlannedDrivers())
    {
      PlannedNames();
      ok := RunPlan(env, PlannedDrivers());
    }

    /** The round, given the planned names. */
    method RunPlan(env: Env, planned: seq<string>) returns (ok: bool)
      requires Promised(env) && IsPlan(planned) && Value() == FIRST
      modifies this
      ensures Finished(env, Value(), ok, planned)
    {
      assert At(env, Value(), planned, 0, 0);
      ok := ProbePlanned(env, BaselineTrial(), planned, 0, 0);
      if !ok { return; }
      ConsultNext(env, Value(), Propose(views), planned, 1, 0);
      ok := Consult(env, Propose(views));
      if !ok { return; }
      if env.propose.noChange {
        FinishFinishes(env, Value(), 1, planned);
        ok := Finish(env, planned[1..]);
        return;
      }
      ok := ProbeCandidates(env, planned);
      if !ok { return; }
      ok := RunComposition(env, planned);
    }

    /** The general and the domain candidate, in that order. */
    method ProbeCandidates(env: Env, planned: seq<string>) returns (ok: bool)
      requires Promised(env) && IsPlan(planned) && !env.propose.failed && !env.propose.noChange
      requires At(env, Value(), planned, 1, 1)
      modifies this
      ensures if ok then At(env, Value(), planned, 3, 1) else Finished(env, Value(), false, planned)
    {
      CandidatesPlanned(env, planned);
      var trials := Trials(env.propose.experiment);
      var i := 1;
      while i < |trials|
        invariant 1 <= i <= |trials| == 3
        invariant forall k | 1 <= k < 3 :: DriverName(trials[k]) == planned[k]
        invariant At(env, Value(), planned, i, 1)
      {
        ok := ProbePlanned(env, trials[i], planned, i, 1);
        if !ok { return; }
        i := i + 1;
      }
      ok := true;
    }

    /** The composition, and the composed candidate when there is one. */
    method RunComposition(env: Env, planned: seq<string>) returns (ok: bool)
      requires Promised(env) && IsPlan(planned)
      requires At(env, Value(), planned, 3, 1)
      modifies this
      ensures Finished(env, Value(), ok, planned)
    {
      ConsultNext(env, Value(), Compose(views), planned, 3, 1);
      ok := Consult(env, Compose(views));
      if !ok { return; }
      if env.compose.noChange {
        FinishFinishes(env, Value(), 3, planned);
        ok := Finish(env, planned[3..]);
        return;
      }
      ok := ProbeComposed(env, planned);
    }

    method ProbeComposed(env: Env, planned: seq<string>) returns (ok: bool)
      requires Promised(env) && IsPlan(planned) && !env.compose.failed && !env.compose.noChange
      requires At(env, Value(), planned, 3, 2)
      modifies this
      ensures Finished(env, Value(), ok, planned)
    {
      CompositionPlanned(env, planned);
      var trials := Trials(env.compose.experiment);
      ok := ProbePlanned(env, trials[1], planned, 3, 2);
      if !ok { return; }
      FinishFinishes(env, Value(), 4, planned);
      assert planned[4..] == [];
      ok := Finish(env, []);
    }
  }
}
