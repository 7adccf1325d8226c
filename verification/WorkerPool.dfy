/** The evaluation runner's pool: a producer hands slots to workers over an unbuffered channel, workers run them and
send records to a buffered channel, and the records are sorted at the end.

A schedule is any sequence of labels; a label that is not enabled leaves the state as it is. While the context lives,
what running a slot yields is a function of the slot, so that two schedules can be compared; once it is cancelled, a
run that finishes may yield anything, and the label says what. */
module WorkerPool {
  import opened Ordering

  datatype Slot = Slot(instance: string, driver: string)

  datatype Rec = Rec(slot: nat, payload: int)

  datatype Config = Config(slots: seq<Slot>, outcome: nat -> int, workers: nat)

  datatype Worker = Idle | Running(slot: nat) | Holding(rec: Rec) | Gone

  datatype State = State(next: nat, closed: bool, workers: seq<Worker>, results: seq<Rec>, cancelled: bool)

  datatype Label =
    | Cancel
    | Hand(who: nat)
    | Quit
    | End
    | Finish(who: nat, interrupted: int)
    | Send(who: nat)
    | Leave(who: nat)

  function Init(cfg: Config): State {
    State(0, false, seq(cfg.workers, _ => Idle), [], false)
  }

  // ---------------------------------------------------------------- steps

  predicate Is(s: State, w: nat, x: Worker) {
    w < |s.workers| && s.workers[w] == x
  }

  /** The producer's send meets a waiting worker. Cancellation does not prevent it: the select may choose either. */
  predicate CanHand(cfg: Config, s: State, w: nat) {
    !s.closed && s.next < |cfg.slots| && Is(s, w, Idle)
  }

  function HandStep(s: State, w: nat): State
    requires w < |s.workers|
  {
    s.(next := s.next + 1, workers := s.workers[w := Running(s.next)])
  }

  predicate CanClose(cfg: Config, s: State) {
    !s.closed && s.next == |cfg.slots|
  }

  predicate CanQuit(cfg: Config, s: State) {
    !s.closed && s.next < |cfg.slots| && s.cancelled
  }

  predicate CanFinish(s: State, w: nat) {
    w < |s.workers| && s.workers[w].Running?
  }

  function FinishStep(cfg: Config, s: State, w: nat, interrupted: int): State
    requires CanFinish(s, w)
  {
    var k := s.workers[w].slot;
    s.(workers := s.workers[w := Holding(Rec(k, if s.cancelled then interrupted else cfg.outcome(k)))])
  }

  /** A send to the result channel goes ahead only while the buffer has room. */
  predicate CanSend(cfg: Config, s: State, w: nat) {
    w < |s.workers| && s.workers[w].Holding? && |s.results| < |cfg.slots|
  }

  function SendStep(s: State, w: nat): State
    requires w < |s.workers| && s.workers[w].Holding?
  {
    s.(workers := s.workers[w := Idle], results := s.results + [s.workers[w].rec])
  }

  function Step(cfg: Config, s: State, l: Label): State {
    match l
    case Cancel => s.(cancelled := true)
    case Hand(w) => if CanHand(cfg, s, w) then HandStep(s, w) else s
    case Quit => if CanQuit(cfg, s) then s.(closed := true) else s
    case End => if CanClose(cfg, s) then s.(closed := true) else s
    case Finish(w, x) => if CanFinish(s, w) then FinishStep(cfg, s, w, x) else s
    case Send(w) => if CanSend(cfg, s, w) then SendStep(s, w) else s
    case Leave(w) => if s.closed && Is(s, w, Idle) then s.(workers := s.workers[w := Gone]) else s
  }

  function Exec(cfg: Config, schedule: seq<Label>): State {
    if schedule == [] then Init(cfg)
    else Step(cfg, Exec(cfg, schedule[..|schedule| - 1]), schedule[|schedule| - 1])
  }

  // ---------------------------------------------------------------- the invariant

  predicate Carries(s: State, w: nat, k: nat) {
    w < |s.workers| && (s.workers[w] == Running(k) || (s.workers[w].Holding? && s.workers[w].rec.slot == k))
  }

  predicate Has(s: State, k: nat) {
    exists i :: 0 <= i < |s.results| && s.results[i].slot == k
  }

  ghost predicate Carried(s: State, k: nat) {
    exists w: nat :: Carries(s, w, k)
  }

  function Load(ws: seq<Worker>): nat {
    if ws == [] then 0
    else Load(ws[..|ws| - 1]) + (if ws[|ws| - 1].Running? || ws[|ws| - 1].Holding? then 1 else 0)
  }

  /** No slot is in two places. */
  ghost predicate Apart(s: State) {
    && (forall v: nat, w: nat, k: nat :: Carries(s, v, k) && Carries(s, w, k) ==> v == w)
    && (forall w: nat, k: nat :: Carries(s, w, k) ==> k < s.next && !Has(s, k))
    && (forall i, j | 0 <= i < j < |s.results| :: s.results[i].slot != s.results[j].slot)
    && (forall i | 0 <= i < |s.results| :: s.results[i].slot < s.next)
  }

  /** No slot that was handed out is lost. */
  ghost predicate Kept(s: State) {
    forall k: nat | k < s.next :: Has(s, k) || Carried(s, k)
  }

  /** Without a cancellation every record is what its slot yields. */
  predicate Truthful(cfg: Config, s: State) {
    !s.cancelled ==>
    && (forall w | 0 <= w < |s.workers| && s.workers[w].Holding? ::
          s.workers[w].rec.payload == cfg.outcome(s.workers[w].rec.slot))
    && (forall i | 0 <= i < |s.results| :: s.results[i].payload == cfg.outcome(s.results[i].slot))
  }

  predicate Shape(cfg: Config, s: State) {
    && s.next <= |cfg.slots| && |s.workers| == cfg.workers
    && |s.results| + Load(s.workers) == s.next
    && (s.closed ==> s.next == |cfg.slots| || s.cancelled)
    && (forall w | 0 <= w < |s.workers| && s.workers[w].Gone? :: s.closed)
  }

  ghost predicate Inv(cfg: Config, s: State) {
    Shape(cfg, s) && Apart(s) && Kept(s) && Truthful(cfg, s)
  }

  lemma {:induction false} LoadUpdate(ws: seq<Worker>, w: nat, x: Worker)
    requires w < |ws|
    ensures Load(ws[w := x]) + (if ws[w].Running? || ws[w].Holding? then 1 else 0)
         == Load(ws) + (if x.Running? || x.Holding? then 1 else 0)
  {
    var n := |ws| - 1;
    if w == n {
      assert ws[w := x][..n] == ws[..n];
    } else {
      LoadUpdate(ws[..n], w, x);
      assert ws[w := x][..n] == ws[..n][w := x];
    }
  }

  lemma {:induction false} NoLoad(n: nat)
    ensures Load(seq(n, _ => Idle)) == 0
  {
    if n > 0 {
      NoLoad(n - 1);
      assert seq(n, _ => Idle)[..n - 1] == seq(n - 1, _ => Idle);
    }
  }

  lemma HandKeeps(cfg: Config, s: State, w: nat)
    requires Inv(cfg, s) && CanHand(cfg, s, w)
    ensures Inv(cfg, HandStep(s, w))
  {
    var t := HandStep(s, w);
    LoadUpdate(s.workers, w, Running(s.next));
    forall v: nat, k: nat
      ensures Carries(t, v, k) <==> (if v == w then k == s.next else Carries(s, v, k))
    {
    }
    forall k: nat
      ensures Has(t, k) <==> Has(s, k)
    {
      assert t.results == s.results;
    }
    forall k: nat | k < t.next
      ensures Has(t, k) || Carried(t, k)
    {
      if k == s.next {
        assert Carries(t, w, k);
      } else if !Has(s, k) {
        var v: nat :| Carries(s, v, k);
        assert Carries(t, v, k);
      }
    }
  }

  lemma FinishKeeps(cfg: Config, s: State, w: nat, interrupted: int)
    requires Inv(cfg, s) && CanFinish(s, w)
    ensures Inv(cfg, FinishStep(cfg, s, w, interrupted))
  {
    var t := FinishStep(cfg, s, w, interrupted);
    LoadUpdate(s.workers, w, t.workers[w]);
    SamePlaces(s, t);
  }

  /** A step that moves nothing keeps every slot where it was. */
  lemma SamePlaces(s: State, t: State)
    requires Apart(s) && Kept(s) && t.results == s.results && t.next == s.next
    requires forall v: nat, k: nat :: Carries(t, v, k) <==> Carries(s, v, k)
    ensures Apart(t) && Kept(t)
  {
    forall k: nat
      ensures (Has(t, k) <==> Has(s, k)) && (Carried(t, k) <==> Carried(s, k))
    {
      assert Has(t, k) <==> Has(s, k);
      if Carried(s, k) {
        var v: nat :| Carries(s, v, k);
        assert Carries(t, v, k);
      }
    }
  }

  lemma LeaveKeeps(cfg: Config, s: State, w: nat)
    requires Inv(cfg, s) && s.closed && Is(s, w, Idle)
    ensures Inv(cfg, s.(workers := s.workers[w := Gone]))
  {
    var t := s.(workers := s.workers[w := Gone]);
    LoadUpdate(s.workers, w, Gone);
    SamePlaces(s, t);
  }

  lemma SendKeeps(cfg: Config, s: State, w: nat)
    requires Inv(cfg, s) && CanSend(cfg, s, w)
    ensures Inv(cfg, SendStep(s, w))
  {
    var t := SendStep(s, w);
    LoadUpdate(s.workers, w, Idle);
    SendMoves(s, w);
    SendApart(s, w);
    forall k: nat | k < t.next
      ensures Has(t, k) || Carried(t, k)
    {
      if !Has(s, k) {
        var v: nat :| Carries(s, v, k);
        assert v != w ==> Carries(t, v, k);
      }
    }
  }

  /** Sending moves one slot from its worker to the results. */
  lemma SendMoves(s: State, w: nat)
    requires w < |s.workers| && s.workers[w].Holding?
    ensures var t, slot := SendStep(s, w), s.workers[w].rec.slot;
            && (forall v: nat, k: nat :: Carries(t, v, k) <==> v != w && Carries(s, v, k))
            && (forall k: nat :: Has(t, k) <==> Has(s, k) || k == slot)
  {
    var t := SendStep(s, w);
    forall k: nat
      ensures Has(t, k) <==> Has(s, k) || k == s.workers[w].rec.slot
    {
      if Has(s, k) {
        var i :| 0 <= i < |s.results| && s.results[i].slot == k;
        assert t.results[i].slot == k;
      }
      assert t.results[|s.results|] == s.workers[w].rec;
    }
  }

  lemma SendApart(s: State, w: nat)
    requires Apart(s) && w < |s.workers| && s.workers[w].Holding?
    ensures Apart(SendStep(s, w))
  {
    var t, slot := SendStep(s, w), s.workers[w].rec.slot;
    SendMoves(s, w);
    assert Carries(s, w, slot);
    forall i, j | 0 <= i < j < |t.results|
      ensures t.results[i].slot != t.results[j].slot
    {
      if j == |s.results| {
        assert Has(s, s.results[i].slot);
      }
    }
  }

  lemma StepKeeps(cfg: Config, s: State, l: Label)
    requires Inv(cfg, s)
    ensures Inv(cfg, Step(cfg, s, l))
  {
    match l
    case Hand(w) => if CanHand(cfg, s, w) { HandKeeps(cfg, s, w); }
    case Finish(w, x) => if CanFinish(s, w) { FinishKeeps(cfg, s, w, x); }
    case Send(w) => if CanSend(cfg, s, w) { SendKeeps(cfg, s, w); }
    case Leave(w) => if s.closed && Is(s, w, Idle) { LeaveKeeps(cfg, s, w); }
    case _ => SamePlaces(s, Step(cfg, s, l));
  }

  lemma {:induction false} AlwaysInv(cfg: Config, schedule: seq<Label>)
    ensures Inv(cfg, Exec(cfg, schedule))
  {
    if schedule == [] {
      NoLoad(cfg.workers);
    } else {
      AlwaysInv(cfg, schedule[..|schedule| - 1]);
      StepKeeps(cfg, Exec(cfg, schedule[..|schedule| - 1]), schedule[|schedule| - 1]);
    }
  }

  // ---------------------------------------------------------------- no send blocks, every run ends

  lemma {:induction false} LoadPositive(ws: seq<Worker>, w: nat)
    requires w < |ws| && (ws[w].Running? || ws[w].Holding?)
    ensures Load(ws) > 0
  {
    if w < |ws| - 1 {
      LoadPositive(ws[..|ws| - 1], w);
    }
  }

  /** A worker with a record always finds room in the result channel. */
  lemma SendsNeverBlock(cfg: Config, schedule: seq<Label>, w: nat)
    ensures var s := Exec(cfg, schedule);
            w < |s.workers| && s.workers[w].Holding? ==> CanSend(cfg, s, w)
  {
    var s := Exec(cfg, schedule);
    AlwaysInv(cfg, schedule);
    if w < |s.workers| && s.workers[w].Holding? {
      LoadPositive(s.workers, w);
    }
  }

  predicate Settled(s: State) {
    s.closed && forall w | 0 <= w < |s.workers| :: s.workers[w].Gone?
  }

  function Weight(w: Worker): nat {
    match w
    case Running(_) => 3
    case Holding(_) => 2
    case Idle => 1
    case Gone => 0
  }

  function Weights(ws: seq<Worker>): nat {
    if ws == [] then 0 else Weights(ws[..|ws| - 1]) + Weight(ws[|ws| - 1])
  }

  /** How much is left to do. */
  function Rank(cfg: Config, s: State): nat
    requires s.next <= |cfg.slots|
  {
    4 * (|cfg.slots| - s.next) + Weights(s.workers) + (if s.closed then 0 else 1)
  }

  lemma {:induction false} WeightsUpdate(ws: seq<Worker>, w: nat, x: Worker)
    requires w < |ws|
    ensures Weights(ws[w := x]) + Weight(ws[w]) == Weights(ws) + Weight(x)
  {
    var n := |ws| - 1;
    if w == n {
      assert ws[w := x][..n] == ws[..n];
    } else {
      WeightsUpdate(ws[..n], w, x);
      assert ws[w := x][..n] == ws[..n][w := x];
    }
  }

  /** Every step that changes anything, other than the cancellation, leaves less to do. */
  lemma StepsCountDown(cfg: Config, s: State, l: Label)
    requires Inv(cfg, s) && !l.Cancel? && Step(cfg, s, l) != s
    ensures Step(cfg, s, l).next <= |cfg.slots| && Rank(cfg, Step(cfg, s, l)) < Rank(cfg, s)
  {
    match l
    case Hand(w) => WeightsUpdate(s.workers, w, Running(s.next));
    case Finish(w, _) => WeightsUpdate(s.workers, w, Step(cfg, s, l).workers[w]);
    case Send(w) => WeightsUpdate(s.workers, w, Idle);
    case Leave(w) => WeightsUpdate(s.workers, w, Gone);
    case _ =>
  }

  /** Until every worker has left, some step is possible, cancelled or not. */
  lemma Progress(cfg: Config, schedule: seq<Label>)
    requires cfg.workers > 0
    ensures var s := Exec(cfg, schedule);
            Settled(s) || exists l: Label :: !l.Cancel? && Step(cfg, s, l) != s
  {
    var s := Exec(cfg, schedule);
    AlwaysInv(cfg, schedule);
    assert s.workers[0].Gone? ==> s.closed;
    if !Settled(s) {
      var w: nat :| w < |s.workers| && !s.workers[w].Gone?;
      var l := match s.workers[w]
        case Running(_) => Finish(w, 0)
        case Holding(_) => Send(w)
        case Idle => if s.closed then Leave(w) else if s.next < |cfg.slots| then Hand(w) else End;
      SendsNeverBlock(cfg, schedule, w);
      assert !l.Cancel? && Step(cfg, s, l) != s;
    }
  }

  // ---------------------------------------------------------------- what a finished run holds

  lemma {:induction false} AllGoneNoLoad(ws: seq<Worker>)
    requires forall w | 0 <= w < |ws| :: ws[w].Gone?
    ensures Load(ws) == 0
  {
    if ws != [] {
      AllGoneNoLoad(ws[..|ws| - 1]);
    }
  }

  predicate HasSlot(rs: seq<Rec>, k: nat) {
    exists i :: 0 <= i < |rs| && rs[i].slot == k
  }

  /** Exactly the first `n` slots were run, once each. */
  ghost predicate RunsFirst(cfg: Config, results: seq<Rec>, n: nat) {
    && |results| == n <= |cfg.slots|
    && Distinct(results)
    && (forall k: nat :: HasSlot(results, k) <==> k < n)
  }

  /** No two records of one slot. */
  predicate Distinct(rs: seq<Rec>) {
    forall i, j | 0 <= i < j < |rs| :: rs[i].slot != rs[j].slot
  }

  predicate Yields(cfg: Config, rs: seq<Rec>) {
    forall i | 0 <= i < |rs| :: rs[i].payload == cfg.outcome(rs[i].slot)
  }

  /** A finished run holds one record for each slot of an initial segment; without a cancellation, for every slot, and
  what the slot yields. */
  lemma FinishedRun(cfg: Config, schedule: seq<Label>)
    requires Settled(Exec(cfg, schedule))
    ensures var s := Exec(cfg, schedule);
            && RunsFirst(cfg, s.results, s.next)
            && (!s.cancelled ==> s.next == |cfg.slots| && Yields(cfg, s.results))
  {
    var s := Exec(cfg, schedule);
    AlwaysInv(cfg, schedule);
    AllGoneNoLoad(s.workers);
    forall k: nat
      ensures HasSlot(s.results, k) <==> k < s.next
    {
      assert HasSlot(s.results, k) <==> Has(s, k);
      assert k < s.next ==> Has(s, k) || Carried(s, k);
    }
  }

  // ---------------------------------------------------------------- the sorted output

  predicate KeyLess(a: Slot, b: Slot) {
    Less(a.instance, b.instance) || (a.instance == b.instance && Less(a.driver, b.driver))
  }

  lemma KeyTotal(a: Slot, b: Slot)
    ensures KeyLess(a, b) || KeyLess(b, a) || a == b
  {
    LessTotal(a.instance, b.instance);
    LessTotal(a.driver, b.driver);
  }

  lemma KeyTransitive(a: Slot, b: Slot, c: Slot)
    requires KeyLess(a, b) && KeyLess(b, c)
    ensures KeyLess(a, c)
  {
    if Less(a.instance, b.instance) && Less(b.instance, c.instance) {
      LessTransitive(a.instance, b.instance, c.instance);
    }
    if Less(a.driver, b.driver) && Less(b.driver, c.driver) {
      LessTransitive(a.driver, b.driver, c.driver);
    }
  }

  lemma KeyIrreflexive(a: Slot)
    ensures !KeyLess(a, a)
  {
    LessIrreflexive(a.instance);
    LessIrreflexive(a.driver);
  }

  predicate Proper(cfg: Config, rs: seq<Rec>) {
    forall i | 0 <= i < |rs| :: rs[i].slot < |cfg.slots|
  }

  /** Before or equal, by instance and then by driver. */
  predicate AtMost(cfg: Config, a: Rec, b: Rec)
    requires a.slot < |cfg.slots| && b.slot < |cfg.slots|
  {
    !KeyLess(cfg.slots[b.slot], cfg.slots[a.slot])
  }

  lemma AtMostTransitive(cfg: Config, a: Rec, b: Rec, c: Rec)
    requires a.slot < |cfg.slots| && b.slot < |cfg.slots| && c.slot < |cfg.slots|
    requires AtMost(cfg, a, b) && AtMost(cfg, b, c)
    ensures AtMost(cfg, a, c)
  {
    var x, y, z := cfg.slots[a.slot], cfg.slots[b.slot], cfg.slots[c.slot];
    KeyTotal(x, y);
    KeyTotal(y, z);
    if KeyLess(z, x) {
      if KeyLess(x, y) { KeyTransitive(z, x, y); }
    }
  }

  predicate Sorted(cfg: Config, rs: seq<Rec>)
    requires Proper(cfg, rs)
  {
    forall i, j | 0 <= i < j < |rs| :: AtMost(cfg, rs[i], rs[j])
  }

  /** The records of one key, in order. */
  function OfKey(cfg: Config, rs: seq<Rec>, key: Slot): seq<Rec>
    requires Proper(cfg, rs)
  {
    if rs == [] then []
    else
      var n := |rs| - 1;
      OfKey(cfg, rs[..n], key) + (if cfg.slots[rs[n].slot] == key then [rs[n]] else [])
  }

  /** Where `x` goes: behind the last record that does not come after it. */
  function Position(cfg: Config, rs: seq<Rec>, x: Rec): (p: nat)
    requires Proper(cfg, rs) && x.slot < |cfg.slots|
    ensures p <= |rs|
    ensures forall i | p <= i < |rs| :: !AtMost(cfg, rs[i], x)
    ensures p > 0 ==> AtMost(cfg, rs[p - 1], x)
  {
    if rs == [] || AtMost(cfg, rs[|rs| - 1], x) then |rs| else Position(cfg, rs[..|rs| - 1], x)
  }

  function Insert(rs: seq<Rec>, p: nat, x: Rec): seq<Rec>
    requires p <= |rs|
  {
    rs[..p] + [x] + rs[p..]
  }

  lemma InsertPermutes(cfg: Config, rs: seq<Rec>, p: nat, x: Rec)
    requires Proper(cfg, rs) && x.slot < |cfg.slots| && p <= |rs|
    ensures Proper(cfg, Insert(rs, p, x)) && multiset(Insert(rs, p, x)) == multiset(rs) + multiset{x}
  {
    assert rs == rs[..p] + rs[p..];
  }

  /** Inserts the records one by one, in order of arrival. */
  function SortStable(cfg: Config, rs: seq<Rec>): (r: seq<Rec>)
    requires Proper(cfg, rs)
    ensures Proper(cfg, r) && |r| == |rs| && multiset(r) == multiset(rs)
  {
    if rs == [] then []
    else
      var n := |rs| - 1;
      var sorted := SortStable(cfg, rs[..n]);
      var p := Position(cfg, sorted, rs[n]);
      assert rs == rs[..n] + [rs[n]];
      InsertPermutes(cfg, sorted, p, rs[n]);
      Insert(sorted, p, rs[n])
  }

  lemma AfterAll(cfg: Config, a: Rec, b: Rec)
    requires a.slot < |cfg.slots| && b.slot < |cfg.slots| && !AtMost(cfg, a, b)
    ensures AtMost(cfg, b, a) && cfg.slots[a.slot] != cfg.slots[b.slot]
  {
    var x, y := cfg.slots[a.slot], cfg.slots[b.slot];
    KeyIrreflexive(x);
    if KeyLess(x, y) { KeyTransitive(x, y, x); }
  }

  /** Everything in front of the place of `x` is at most `x`. */
  lemma FrontAtMost(cfg: Config, rs: seq<Rec>, p: nat, x: Rec, i: nat)
    requires Proper(cfg, rs) && x.slot < |cfg.slots| && Sorted(cfg, rs)
    requires i < p <= |rs| && AtMost(cfg, rs[p - 1], x)
    ensures AtMost(cfg, rs[i], x)
  {
    if i < p - 1 { AtMostTransitive(cfg, rs[i], rs[p - 1], x); }
  }

  lemma InsertedPair(cfg: Config, rs: seq<Rec>, p: nat, x: Rec, r: seq<Rec>, i: nat, j: nat)
    requires Proper(cfg, rs) && x.slot < |cfg.slots| && Sorted(cfg, rs) && p <= |rs| && r == Insert(rs, p, x)
    requires p > 0 ==> AtMost(cfg, rs[p - 1], x)
    requires forall k | p <= k < |rs| :: !AtMost(cfg, rs[k], x)
    requires i < j < |r|
    ensures r[i].slot < |cfg.slots| && r[j].slot < |cfg.slots| && AtMost(cfg, r[i], r[j])
  {
    if j < p {
      assert r[i] == rs[i] && r[j] == rs[j];
    } else if j == p {
      assert r[i] == rs[i] && r[j] == x;
      FrontAtMost(cfg, rs, p, x, i);
    } else if i == p {
      assert r[i] == x && r[j] == rs[j - 1];
      AfterAll(cfg, rs[j - 1], x);
    } else {
      assert r[i] == rs[if i < p then i else i - 1] && r[j] == rs[j - 1];
    }
  }

  lemma InsertSorted(cfg: Config, rs: seq<Rec>, x: Rec)
    requires Proper(cfg, rs) && x.slot < |cfg.slots| && Sorted(cfg, rs)
    ensures var r := Insert(rs, Position(cfg, rs, x), x);
            Proper(cfg, r) && Sorted(cfg, r)
  {
    var p := Position(cfg, rs, x);
    var r := Insert(rs, p, x);
    InsertPermutes(cfg, rs, p, x);
    forall i, j | 0 <= i < j < |r|
      ensures AtMost(cfg, r[i], r[j])
    {
      InsertedPair(cfg, rs, p, x, r, i, j);
    }
  }

  /** The output is sorted by instance and driver. */
  lemma {:induction false} SortSorts(cfg: Config, rs: seq<Rec>)
    requires Proper(cfg, rs)
    ensures Sorted(cfg, SortStable(cfg, rs))
  {
    if rs != [] {
      var n := |rs| - 1;
      SortSorts(cfg, rs[..n]);
      InsertSorted(cfg, SortStable(cfg, rs[..n]), rs[n]);
    }
  }

  lemma {:induction false} OfKeyConcat(cfg: Config, a: seq<Rec>, b: seq<Rec>, key: Slot)
    requires Proper(cfg, a) && Proper(cfg, b)
    ensures OfKey(cfg, a + b, key) == OfKey(cfg, a, key) + OfKey(cfg, b, key)
  {
    if b == [] {
      assert a + b == a;
    } else {
      var n := |b| - 1;
      assert (a + b)[..|a| + n] == a + b[..n];
      OfKeyConcat(cfg, a, b[..n], key);
    }
  }

  lemma {:induction false} OfKeyNone(cfg: Config, rs: seq<Rec>, key: Slot)
    requires Proper(cfg, rs) && forall i | 0 <= i < |rs| :: cfg.slots[rs[i].slot] != key
    ensures OfKey(cfg, rs, key) == []
  {
    if rs != [] {
      OfKeyNone(cfg, rs[..|rs| - 1], key);
    }
  }

  lemma OfKeyThree(cfg: Config, a: seq<Rec>, b: seq<Rec>, c: seq<Rec>, key: Slot)
    requires Proper(cfg, a) && Proper(cfg, b) && Proper(cfg, c)
    ensures Proper(cfg, a + b + c)
    ensures OfKey(cfg, a + b + c, key) == OfKey(cfg, a, key) + OfKey(cfg, b, key) + OfKey(cfg, c, key)
  {
    OfKeyConcat(cfg, a + b, c, key);
    OfKeyConcat(cfg, a, b, key);
  }

  lemma Swap(a: seq<Rec>, b: seq<Rec>, c: seq<Rec>)
    requires b == [] || c == []
    ensures a + b + c == a + c + b
  {
  }

  /** Records of different keys pass each other without a trace. */
  lemma Passes(cfg: Config, front: seq<Rec>, back: seq<Rec>, x: seq<Rec>, key: Slot)
    requires Proper(cfg, front) && Proper(cfg, back) && Proper(cfg, x)
    requires OfKey(cfg, back, key) == [] || OfKey(cfg, x, key) == []
    ensures Proper(cfg, front + x + back)
    ensures OfKey(cfg, front + x + back, key) == OfKey(cfg, front, key) + OfKey(cfg, back, key) + OfKey(cfg, x, key)
  {
    OfKeyThree(cfg, front, x, back, key);
    Swap(OfKey(cfg, front, key), OfKey(cfg, x, key), OfKey(cfg, back, key));
  }

  /** What comes after `x` in the order is of other keys. */
  lemma BackDiffers(cfg: Config, back: seq<Rec>, x: Rec, key: Slot)
    requires Proper(cfg, back) && Proper(cfg, [x]) && [x][0].slot < |cfg.slots|
    requires forall i | 0 <= i < |back| :: !AtMost(cfg, back[i], x)
    ensures OfKey(cfg, back, key) == [] || OfKey(cfg, [x], key) == []
  {
    if cfg.slots[x.slot] == key {
      forall i | 0 <= i < |back|
        ensures cfg.slots[back[i].slot] != key
      {
        AfterAll(cfg, back[i], x);
      }
      OfKeyNone(cfg, back, key);
    } else {
      OfKeyNone(cfg, [x], key);
    }
  }

  /** An inserted record passes only records of other keys. */
  lemma InsertStable(cfg: Config, rs: seq<Rec>, x: Rec, key: Slot, p: nat)
    requires Proper(cfg, rs) && Proper(cfg, [x]) && [x][0].slot < |cfg.slots| && p == Position(cfg, rs, x)
    ensures Proper(cfg, Insert(rs, p, x))
    ensures OfKey(cfg, Insert(rs, p, x), key) == OfKey(cfg, rs, key) + OfKey(cfg, [x], key)
  {
    var front, back := rs[..p], rs[p..];
    BackDiffers(cfg, back, x, key);
    Passes(cfg, front, back, [x], key);
    OfKeySplit(cfg, rs, p, key);
  }

  lemma OfKeySplit(cfg: Config, rs: seq<Rec>, p: nat, key: Slot)
    requires Proper(cfg, rs) && p <= |rs|
    ensures OfKey(cfg, rs, key) == OfKey(cfg, rs[..p], key) + OfKey(cfg, rs[p..], key)
  {
    OfKeyConcat(cfg, rs[..p], rs[p..], key);
    assert rs == rs[..p] + rs[p..];
  }

  /** The output is a permutation of the records that leaves the records of one key in their order of arrival. */
  lemma {:induction false} SortsStably(cfg: Config, rs: seq<Rec>, key: Slot)
    requires Proper(cfg, rs)
    ensures multiset(SortStable(cfg, rs)) == multiset(rs)
    ensures OfKey(cfg, SortStable(cfg, rs), key) == OfKey(cfg, rs, key)
  {
    if rs != [] {
      var n := |rs| - 1;
      var sorted := SortStable(cfg, rs[..n]);
      SortsStably(cfg, rs[..n], key);
      InsertStable(cfg, sorted, rs[n], key, Position(cfg, sorted, rs[n]));
      OfKeySplit(cfg, rs, n, key);
      assert rs[n..] == [rs[n]];
    }
  }

  // ---------------------------------------------------------------- schedules do not show

  predicate DistinctKeys(cfg: Config) {
    forall i, j | 0 <= i < j < |cfg.slots| :: cfg.slots[i] != cfg.slots[j]
  }

  /** Records of the same slots. */
  ghost predicate SameSlots(a: seq<Rec>, b: seq<Rec>) {
    |a| == |b| && forall k: nat :: HasSlot(a, k) <==> HasSlot(b, k)
  }

  /** Sorted records of distinct slots stand in an order that depends on which slots they are, and on nothing else. */
  lemma {:induction false} SortedUnique(cfg: Config, a: seq<Rec>, b: seq<Rec>)
    requires DistinctKeys(cfg) && Proper(cfg, a) && Proper(cfg, b) && Sorted(cfg, a) && Sorted(cfg, b)
    requires Distinct(a) && Distinct(b) && SameSlots(a, b)
    ensures forall i | 0 <= i < |a| :: a[i].slot == b[i].slot
  {
    if a != [] {
      var n := |a| - 1;
      LastSame(cfg, a, b);
      InitSame(a, b);
      SortedUnique(cfg, a[..n], b[..n]);
      assert forall i | 0 <= i < n :: a[..n][i] == a[i] && b[..n][i] == b[i];
    }
  }

  lemma InitSame(a: seq<Rec>, b: seq<Rec>)
    requires Distinct(a) && Distinct(b) && SameSlots(a, b) && a != [] && a[|a| - 1].slot == b[|b| - 1].slot
    ensures SameSlots(a[..|a| - 1], b[..|b| - 1])
  {
    var a', b' := a[..|a| - 1], b[..|b| - 1];
    forall k: nat
      ensures HasSlot(a', k) <==> HasSlot(b', k)
    {
      InInit(a, k);
      InInit(b, k);
    }
  }

  lemma InInit(a: seq<Rec>, k: nat)
    requires Distinct(a) && a != []
    ensures HasSlot(a[..|a| - 1], k) <==> HasSlot(a, k) && k != a[|a| - 1].slot
  {
    var n := |a| - 1;
    if HasSlot(a[..n], k) {
      var i :| 0 <= i < n && a[..n][i].slot == k;
      assert a[i].slot == k;
    }
    if HasSlot(a, k) && k != a[n].slot {
      var i :| 0 <= i < |a| && a[i].slot == k;
      assert a[..n][i].slot == k;
    }
  }

  lemma LastSame(cfg: Config, a: seq<Rec>, b: seq<Rec>)
    requires DistinctKeys(cfg) && Proper(cfg, a) && Proper(cfg, b) && Sorted(cfg, a) && Sorted(cfg, b)
    requires Distinct(a) && Distinct(b) && SameSlots(a, b) && a != []
    ensures a[|a| - 1].slot == b[|b| - 1].slot
  {
    var n := |a| - 1;
    var x, y := a[n].slot, b[n].slot;
    assert HasSlot(b, y) && HasSlot(a, x);
    var i :| 0 <= i <= n && a[i].slot == y;
    var j :| 0 <= j <= n && b[j].slot == x;
    KeyTotal(cfg.slots[x], cfg.slots[y]);
    KeyIrreflexive(cfg.slots[x]);
    assert cfg.slots[x] == cfg.slots[y];
  }

  function Output(cfg: Config, s: State): seq<Rec>
    requires Proper(cfg, s.results)
  {
    SortStable(cfg, s.results)
  }

  /** Any two finished runs of the same configuration that got equally far list the same slots in the same order,
  however the workers were scheduled; when neither was cancelled, they put out the same records. */
  lemma ScheduleDoesNotShow(cfg: Config, one: seq<Label>, other: seq<Label>)
    requires DistinctKeys(cfg)
    requires Settled(Exec(cfg, one)) && Settled(Exec(cfg, other)) && Exec(cfg, one).next == Exec(cfg, other).next
    ensures Proper(cfg, Exec(cfg, one).results) && Proper(cfg, Exec(cfg, other).results)
    ensures var a, b := Output(cfg, Exec(cfg, one)), Output(cfg, Exec(cfg, other));
            && |a| == |b| && (forall i | 0 <= i < |a| :: a[i].slot == b[i].slot)
            && (!Exec(cfg, one).cancelled && !Exec(cfg, other).cancelled ==> a == b)
  {
    var a, b := Exec(cfg, one), Exec(cfg, other);
    FinishedRun(cfg, one);
    FinishedRun(cfg, other);
    SortedRun(cfg, a.results, a.next);
    SortedRun(cfg, b.results, b.next);
    SortedUnique(cfg, Output(cfg, a), Output(cfg, b));
    if !a.cancelled && !b.cancelled {
      SameRecords(cfg, Output(cfg, a), Output(cfg, b));
    }
  }

  lemma SameRecords(cfg: Config, a: seq<Rec>, b: seq<Rec>)
    requires |a| == |b| && Yields(cfg, a) && Yields(cfg, b) && forall i | 0 <= i < |a| :: a[i].slot == b[i].slot
    ensures a == b
  {
  }

  /** Sorting keeps which slots there are, and what they yield. */
  lemma SortedRun(cfg: Config, rs: seq<Rec>, n: nat)
    requires RunsFirst(cfg, rs, n)
    ensures Proper(cfg, rs)
    ensures var out := SortStable(cfg, rs);
            && Sorted(cfg, out) && RunsFirst(cfg, out, n)
            && (Yields(cfg, rs) ==> Yields(cfg, out))
  {
    forall i | 0 <= i < |rs|
      ensures rs[i].slot < n
    {
      assert HasSlot(rs, rs[i].slot);
    }
    var out := SortStable(cfg, rs);
    SortSorts(cfg, rs);
    SortedDistinct(rs, out);
    forall k: nat
      ensures HasSlot(out, k) <==> HasSlot(rs, k)
    {
      SlotKept(rs, out, k);
      SlotKept(out, rs, k);
    }
    forall i | 0 <= i < |out| && Yields(cfg, rs)
      ensures out[i].payload == cfg.outcome(out[i].slot)
    {
      assert out[i] in multiset(rs);
    }
  }

  lemma SlotKept(a: seq<Rec>, b: seq<Rec>, k: nat)
    requires multiset(a) == multiset(b)
    ensures HasSlot(a, k) ==> HasSlot(b, k)
  {
    if HasSlot(a, k) {
      var i :| 0 <= i < |a| && a[i].slot == k;
      assert a[i] in multiset(b);
      var j :| 0 <= j < |b| && b[j] == a[i];
    }
  }

  lemma SortedDistinct(rs: seq<Rec>, out: seq<Rec>)
    requires Distinct(rs) && multiset(out) == multiset(rs)
    ensures Distinct(out)
  {
    forall i, j | 0 <= i < j < |out|
      ensures out[i].slot != out[j].slot
    {
      assert out[i] in multiset(rs) && out[j] in multiset(rs);
      if out[i] == out[j] {
        TwiceInOut(out, i, j);
        OnceOrNever(rs, out[i]);
      }
    }
  }

  lemma TwiceInOut(rs: seq<Rec>, i: nat, j: nat)
    requires i < j < |rs| && rs[i] == rs[j]
    ensures multiset(rs)[rs[i]] >= 2
  {
    assert rs == rs[..i] + [rs[i]] + rs[i + 1..j] + [rs[j]] + rs[j + 1..];
  }

  lemma OnceOrNever(rs: seq<Rec>, x: Rec)
    requires Distinct(rs)
    ensures multiset(rs)[x] <= 1
  {
    if x in rs {
      var i :| 0 <= i < |rs| && rs[i] == x;
      assert rs == rs[..i] + [x] + rs[i + 1..];
      assert x !in rs[..i] && x !in rs[i + 1..];
    }
  }

  // ---------------------------------------------------------------- the slots

  function Row(spec: string, drivers: seq<string>): (r: seq<Slot>)
    ensures |r| == |drivers| && forall j | 0 <= j < |r| :: r[j] == Slot(spec, drivers[j])
  {
    if drivers == [] then [] else Row(spec, drivers[..|drivers| - 1]) + [Slot(spec, drivers[|drivers| - 1])]
  }

  /** Every driver for the first task, then every driver for the second, and so on. */
  function Rows(specs: seq<string>, drivers: seq<string>): seq<Slot> {
    if specs == [] then [] else Rows(specs[..|specs| - 1], drivers) + Row(specs[|specs| - 1], drivers)
  }

  /** The producer's loops. */
  method Slots(specs: seq<string>, drivers: seq<string>) returns (slots: seq<Slot>)
    ensures slots == Rows(specs, drivers)
  {
    slots := [];
    var i := 0;
    while i < |specs|
      invariant 0 <= i <= |specs| && slots == Rows(specs[..i], drivers)
    {
      slots := AppendRow(slots, specs[i], drivers);
      assert specs[..i + 1][..i] == specs[..i];
      i := i + 1;
    }
    assert specs[..i] == specs;
  }

  method AppendRow(before: seq<Slot>, spec: string, drivers: seq<string>) returns (slots: seq<Slot>)
    ensures slots == before + Row(spec, drivers)
  {
    slots := before;
    var j := 0;
    while j < |drivers|
      invariant 0 <= j <= |drivers| && slots == before + Row(spec, drivers)[..j]
    {
      slots := slots + [Slot(spec, drivers[j])];
      j := j + 1;
    }
  }

  predicate NoRepeats(xs: seq<string>) {
    forall i, j | 0 <= i < j < |xs| :: xs[i] != xs[j]
  }

  lemma {:induction false} RowsWithin(specs: seq<string>, drivers: seq<string>, k: nat)
    requires k < |Rows(specs, drivers)|
    ensures Rows(specs, drivers)[k].instance in specs && Rows(specs, drivers)[k].driver in drivers
  {
    var before := Rows(specs[..|specs| - 1], drivers);
    if k < |before| {
      RowsWithin(specs[..|specs| - 1], drivers, k);
    }
  }

  /** Different tasks and different drivers make every slot's key its own. */
  lemma {:induction false} RowsDistinct(specs: seq<string>, drivers: seq<string>, i: nat, j: nat)
    requires NoRepeats(specs) && NoRepeats(drivers) && i < j < |Rows(specs, drivers)|
    ensures Rows(specs, drivers)[i] != Rows(specs, drivers)[j]
  {
    var n := |specs| - 1;
    var before := Rows(specs[..n], drivers);
    if j < |before| {
      RowsDistinct(specs[..n], drivers, i, j);
    } else if i < |before| {
      RowsWithin(specs[..n], drivers, i);
    }
  }
}
