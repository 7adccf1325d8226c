/** Grading a result set with the external evaluator, driver by driver.

What the file system, the evaluator, the persistence callbacks and the context answer is an `Env`. */
module Scorer {
  import opened Base
  import opened Ordering

  datatype VerdictError = Clean | EmptyPatch | EvaluatorError | Incomplete

  datatype Verdict = Verdict(resolved: bool, error: VerdictError)

  type Verdicts = map<string, Verdict>

  /** `failed` says that the driver itself failed: there is no prediction to grade. */
  datatype Task = Task(instance: string, driver: string, failed: bool, resolved: Option<bool>, evaluatorError: string)

  datatype Status = Unscored | Running | Completed | Cancelled | Unavailable | Failed

  /** One evaluator invocation: both captures and what the evaluator returned. */
  datatype Invocation = Invocation(startCaptured: bool, verdicts: Option<Verdicts>, endCaptured: bool)

  datatype Env = Env(
    workspace: bool,
    available: bool,
    predictions: string -> bool,
    first: string -> Invocation,
    rebuildPredictions: string -> bool,
    rebuild: string -> Invocation,
    persists: nat -> bool,
    cancelledAtEnd: bool,
    cancelledAtReturn: bool)

  datatype Failure =
    | Nil
    | NotAllocated
    | NotAvailable
    | NotInvoked(driver: string)
    | NotPersisted(at: nat)
    | NotRebuilt(driver: string)
    | NotGraded

  /** The verdicts an invocation yields, if nothing about it failed. */
  function Invoke(i: Invocation): Option<Verdicts> {
    if i.startCaptured && i.endCaptured then i.verdicts else None
  }

  // ---------------------------------------------------------------- what a driver's records should get

  predicate Definite(v: Verdicts, instance: string) {
    instance in v && v[instance].error != EvaluatorError && v[instance].error != Incomplete
  }

  predicate Ungradeable(v: Verdicts, instance: string) {
    instance in v && v[instance].error == EvaluatorError
  }

  predicate Predicted(t: Task, driver: string) {
    !t.failed && t.driver == driver
  }

  predicate NeedsRebuild(tasks: seq<Task>, driver: string, v: Verdicts) {
    exists i :: 0 <= i < |tasks| && Predicted(tasks[i], driver) && Ungradeable(v, tasks[i].instance)
  }

  /** The rebuild's verdicts, if there was a rebuild and it worked. */
  function Rebuilt(env: Env, driver: string): Option<Verdicts> {
    if env.rebuildPredictions(driver) then Invoke(env.rebuild(driver)) else None
  }

  /** The verdicts a driver is graded with: a rebuild's verdicts replace the first ones where it returned any. */
  function FinalVerdicts(env: Env, tasks: seq<Task>, driver: string): Verdicts {
    match Invoke(env.first(driver))
    case None => map[]
    case Some(v) =>
      if NeedsRebuild(tasks, driver, v) && Rebuilt(env, driver).Some? then v + Rebuilt(env, driver).value else v
  }

  function Reason(e: VerdictError): string {
    match e
    case Clean => ""
    case EmptyPatch => "empty patch"
    case EvaluatorError => "evaluator error"
    case Incomplete => "incomplete"
  }

  function Grade(t: Task, v: Verdicts): Task {
    if t.instance !in v then t.(resolved := None, evaluatorError := "evaluator omitted verdict")
    else if Definite(v, t.instance) then t.(resolved := Some(v[t.instance].resolved), evaluatorError := "")
    else t.(resolved := None, evaluatorError := Reason(v[t.instance].error))
  }

  // ---------------------------------------------------------------- how a driver ends

  /** What stops scoring at a driver, if anything: `Nil` lets the next driver go on. */
  predicate Ends(env: Env, tasks: seq<Task>, driver: string, f: Failure) {
    match f
    case NotInvoked(d) => d == driver && !(env.predictions(driver) && Invoke(env.first(driver)).Some?)
    case NotPersisted(at) =>
      && env.predictions(driver) && Invoke(env.first(driver)).Some?
      && at < |tasks| && Predicted(tasks[at], driver) && !env.persists(at)
      && forall i | 0 <= i < at && Predicted(tasks[i], driver) :: env.persists(i)
    case NotRebuilt(d) => d == driver && Graded(env, tasks, driver) && RebuildFails(env, tasks, driver)
    case Nil => Graded(env, tasks, driver) && !RebuildFails(env, tasks, driver)
    case _ => false
  }

  /** Every record of the driver gets its verdict. */
  predicate Graded(env: Env, tasks: seq<Task>, driver: string) {
    && env.predictions(driver) && Invoke(env.first(driver)).Some?
    && forall i | 0 <= i < |tasks| && Predicted(tasks[i], driver) :: env.persists(i)
  }

  predicate RebuildFails(env: Env, tasks: seq<Task>, driver: string) {
    && Invoke(env.first(driver)).Some?
    && NeedsRebuild(tasks, driver, Invoke(env.first(driver)).value)
    && Rebuilt(env, driver).None?
  }

  /** How many records, from the first on, are looked at for the driver where scoring stops. */
  function Upto(tasks: seq<Task>, f: Failure): nat {
    match f
    case NotPersisted(at) => at + 1
    case NotRebuilt(_) => |tasks|
    case _ => 0
  }

  /** The record was reached: its driver was passed, or scoring stopped at its driver only after it. */
  predicate Reached(tasks: seq<Task>, drivers: seq<string>, stop: nat, upto: nat, i: nat)
    requires i < |tasks|
  {
    && !tasks[i].failed
    && ((exists d :: 0 <= d < stop && d < |drivers| && drivers[d] == tasks[i].driver)
        || (stop < |drivers| && drivers[stop] == tasks[i].driver && i < upto))
  }

  /** Exactly the reached records carry their driver's verdict; everything else is as it was. */
  predicate GradedTo(env: Env, before: seq<Task>, after: seq<Task>, drivers: seq<string>, stop: nat, upto: nat) {
    && |after| == |before|
    && forall i | 0 <= i < |before| ::
         after[i] == if Reached(before, drivers, stop, upto, i)
                     then Grade(before[i], FinalVerdicts(env, before, before[i].driver))
                     else before[i]
  }

  // ---------------------------------------------------------------- the drivers, in order

  predicate Ascending(ds: seq<string>) {
    forall i, j | 0 <= i < j < |ds| :: Less(ds[i], ds[j])
  }

  function InsertName(ds: seq<string>, x: string): (r: seq<string>)
    ensures forall d :: d in r <==> d in ds || d == x
  {
    if ds == [] then [x]
    else if ds[0] == x then ds
    else if Less(x, ds[0]) then [x] + ds
    else [ds[0]] + InsertName(ds[1..], x)
  }

  lemma {:induction false} InsertNameAscends(ds: seq<string>, x: string)
    requires Ascending(ds)
    ensures Ascending(InsertName(ds, x))
  {
    if ds != [] && ds[0] != x {
      if Less(x, ds[0]) {
        forall j | 0 < j < |ds|
          ensures Less(x, ds[j])
        {
          LessTransitive(x, ds[0], ds[j]);
        }
      } else {
        LessTotal(x, ds[0]);
        var rest := InsertName(ds[1..], x);
        InsertNameAscends(ds[1..], x);
        forall j | 0 <= j < |rest|
          ensures Less(ds[0], rest[j])
        {
          assert rest[j] in rest;
        }
      }
    }
  }

  ghost predicate DriversOf(tasks: seq<Task>, n: nat, ds: seq<string>)
    requires n <= |tasks|
  {
    Ascending(ds) && forall d :: d in ds <==> exists i :: 0 <= i < n && Predicted(tasks[i], d)
  }

  /** The drivers with something to grade, sorted. */
  method Drivers(tasks: seq<Task>) returns (ds: seq<string>)
    ensures DriversOf(tasks, |tasks|, ds)
  {
    ds := [];
    var n := 0;
    while n < |tasks|
      invariant 0 <= n <= |tasks| && DriversOf(tasks, n, ds)
    {
      ghost var was := ds;
      if !tasks[n].failed {
        InsertNameAscends(ds, tasks[n].driver);
        ds := InsertName(ds, tasks[n].driver);
      }
      forall d
        ensures d in ds <==> exists i :: 0 <= i < n + 1 && Predicted(tasks[i], d)
      {
        OneMore(tasks, n, d);
        assert d in was <==> exists i :: 0 <= i < n && Predicted(tasks[i], d);
      }
      n := n + 1;
    }
  }

  lemma OneMore(tasks: seq<Task>, n: nat, d: string)
    requires n < |tasks|
    ensures (exists i :: 0 <= i < n + 1 && Predicted(tasks[i], d))
            <==> (exists i :: 0 <= i < n && Predicted(tasks[i], d)) || Predicted(tasks[n], d)
  {
    if exists i :: 0 <= i < n && Predicted(tasks[i], d) {
      var i :| 0 <= i < n && Predicted(tasks[i], d);
      assert 0 <= i < n + 1;
    }
  }

  // ---------------------------------------------------------------- one driver

  /** Grading keeps what identifies a record. */
  predicate SameKeys(a: seq<Task>, b: seq<Task>) {
    |a| == |b| && forall i | 0 <= i < |a| ::
      a[i].instance == b[i].instance && a[i].driver == b[i].driver && a[i].failed == b[i].failed
  }

  lemma RebuildSame(a: seq<Task>, b: seq<Task>, driver: string, v: Verdicts)
    requires SameKeys(a, b) && NeedsRebuild(a, driver, v)
    ensures NeedsRebuild(b, driver, v)
  {
    var i :| 0 <= i < |a| && Predicted(a[i], driver) && Ungradeable(v, a[i].instance);
    assert Predicted(b[i], driver) && Ungradeable(v, b[i].instance);
  }

  lemma GradedKeys(env: Env, before: seq<Task>, after: seq<Task>, ds: seq<string>, stop: nat, upto: nat)
    requires GradedTo(env, before, after, ds, stop, upto)
    ensures SameKeys(before, after)
  {
  }

  /** The first `n` records of one driver got a verdict of `v`, nothing else changed. */
  predicate DriverGraded(mid: seq<Task>, after: seq<Task>, driver: string, v: Verdicts, n: nat) {
    && |after| == |mid|
    && forall i | 0 <= i < |mid| :: after[i] == if i < n && Predicted(mid[i], driver) then Grade(mid[i], v) else mid[i]
  }

  /** Grading the next driver, up to some record. */
  lemma GradesNext(env: Env, before: seq<Task>, mid: seq<Task>, after: seq<Task>, ds: seq<string>, d: nat, n: nat)
    requires Ascending(ds) && d < |ds| && GradedTo(env, before, mid, ds, d, 0)
    requires DriverGraded(mid, after, ds[d], FinalVerdicts(env, before, ds[d]), n)
    ensures GradedTo(env, before, after, ds, d, n)
  {
    forall i | 0 <= i < |before|
      ensures after[i] == if Reached(before, ds, d, n, i)
                          then Grade(before[i], FinalVerdicts(env, before, before[i].driver))
                          else before[i]
    {
      NotEarlier(ds, d);
      assert Predicted(mid[i], ds[d]) <==> Predicted(before[i], ds[d]);
    }
  }

  lemma NotEarlier(ds: seq<string>, d: nat)
    requires Ascending(ds) && d < |ds|
    ensures forall e | 0 <= e < d :: ds[e] != ds[d]
  {
    LessIrreflexive(ds[d]);
  }

  lemma PassesOn(env: Env, before: seq<Task>, after: seq<Task>, ds: seq<string>, d: nat)
    requires d < |ds| && GradedTo(env, before, after, ds, d, |before|)
    ensures GradedTo(env, before, after, ds, d + 1, 0)
  {
    forall i: nat | i < |before|
      ensures Reached(before, ds, d + 1, 0, i) <==> Reached(before, ds, d, |before|, i)
    {
      if exists e :: 0 <= e < d + 1 && e < |ds| && ds[e] == before[i].driver {
        var e :| 0 <= e < d + 1 && e < |ds| && ds[e] == before[i].driver;
        assert e < d || e == d;
      }
      assert ds[d] == ds[d];
    }
  }

  ghost predicate AllDefinite(env: Env, tasks: seq<Task>, ds: seq<string>, n: nat) {
    forall i | 0 <= i < |tasks| && Reached(tasks, ds, n, 0, i) ::
      Definite(FinalVerdicts(env, tasks, tasks[i].driver), tasks[i].instance)
  }

  // ---------------------------------------------------------------- scoring

  /** What scoring leaves behind: which records were graded, why it stopped where it stopped, and the status. */
  ghost predicate Scored(
    env: Env, before: seq<Task>, after: seq<Task>, status: Status, f: Failure, ds: seq<string>, stop: nat)
  {
    && DriversOf(before, |before|, ds)
    && stop <= |ds|
    && GradedTo(env, before, after, ds, stop, Upto(before, f))
    && (forall d | 0 <= d < stop :: Ends(env, before, ds[d], Nil))
    && (match f
        case Nil => stop == |ds|
        case NotGraded => stop == |ds|
        case NotAllocated => stop == 0 && !env.workspace
        case NotAvailable => stop == 0 && env.workspace && !env.available
        case _ => stop < |ds| && Ends(env, before, ds[stop], f))
    && (f == Nil <==> Succeeds(env, before, ds))
    && status == StatusOf(env, f)
  }

  /** The condition under which scoring succeeds. */
  ghost predicate Succeeds(env: Env, tasks: seq<Task>, ds: seq<string>) {
    && env.workspace && env.available && !env.cancelledAtEnd
    && (forall d | 0 <= d < |ds| :: Ends(env, tasks, ds[d], Nil))
    && AllDefinite(env, tasks, ds, |ds|)
  }

  function StatusOf(env: Env, f: Failure): Status {
    if f.Nil? then Completed
    else if env.cancelledAtReturn then Cancelled
    else if f.NotAvailable? then Unavailable
    else Failed
  }

  /** After a success every predicted record has a verdict: the rebuild's where it returned one, the first one
  elsewhere. */
  lemma CompletedIsGraded(
    env: Env, before: seq<Task>, after: seq<Task>, status: Status, ds: seq<string>, stop: nat, f: Failure, i: nat)
    requires Scored(env, before, after, status, f, ds, stop) && status == Completed && i < |before|
    ensures before[i].failed ==> after[i] == before[i]
    ensures !before[i].failed ==>
              var t := before[i];
              var v := FinalVerdicts(env, before, t.driver);
              && Definite(v, t.instance)
              && after[i] == t.(resolved := Some(v[t.instance].resolved), evaluatorError := "")
  {
    if !before[i].failed {
      assert Predicted(before[i], before[i].driver);
      assert before[i].driver in ds;
      var d :| 0 <= d < |ds| && ds[d] == before[i].driver;
      SuccessReachesAll(env, before, after, ds, stop, f, status);
      assert Reached(before, ds, |ds|, 0, i);
    }
  }

  lemma SuccessReachesAll(
    env: Env, before: seq<Task>, after: seq<Task>, ds: seq<string>, stop: nat, f: Failure, status: Status)
    requires Scored(env, before, after, status, f, ds, stop) && f == Nil
    ensures GradedTo(env, before, after, ds, |ds|, 0)
  {
  }

  ghost predicate DriverDefinite(env: Env, tasks: seq<Task>, driver: string) {
    forall i | 0 <= i < |tasks| && Predicted(tasks[i], driver) ::
      Definite(FinalVerdicts(env, tasks, driver), tasks[i].instance)
  }

  lemma DefiniteNext(env: Env, tasks: seq<Task>, ds: seq<string>, d: nat)
    requires d < |ds|
    ensures AllDefinite(env, tasks, ds, d + 1) <==> AllDefinite(env, tasks, ds, d) && DriverDefinite(env, tasks, ds[d])
  {
    forall i: nat | i < |tasks|
      ensures Reached(tasks, ds, d + 1, 0, i) <==> Reached(tasks, ds, d, 0, i) || Predicted(tasks[i], ds[d])
    {
      if exists e :: 0 <= e < d + 1 && e < |ds| && ds[e] == tasks[i].driver {
        var e :| 0 <= e < d + 1 && e < |ds| && ds[e] == tasks[i].driver;
        assert e < d || e == d;
      }
      assert ds[d] == ds[d];
    }
  }

  /** How a driver ended, from how its grading ended. */
  lemma DriverEnds(env: Env, tasks: seq<Task>, driver: string, stuck: Option<nat>, rebuildFailed: bool, f: Failure)
    requires env.predictions(driver) && Invoke(env.first(driver)).Some?
    requires rebuildFailed == RebuildFails(env, tasks, driver)
    requires if stuck.None? then forall i | 0 <= i < |tasks| && Predicted(tasks[i], driver) :: env.persists(i)
             else && stuck.value < |tasks| && Predicted(tasks[stuck.value], driver) && !env.persists(stuck.value)
                  && forall i | 0 <= i < stuck.value && Predicted(tasks[i], driver) :: env.persists(i)
    requires f == if stuck.Some? then NotPersisted(stuck.value) else if rebuildFailed then NotRebuilt(driver) else Nil
    ensures Ends(env, tasks, driver, f)
  {
  }

  class Results {
    var tasks: seq<Task>
    var status: Status

    constructor (records: seq<Task>)
      ensures tasks == records && status == Unscored
    {
      tasks, status := records, Unscored;
    }

    /** Writes a driver's verdicts into its records, persisting each before the next. */
    method GradeDriver(env: Env, driver: string, v: Verdicts) returns (stuck: Option<nat>, definite: bool)
      modifies this`tasks
      ensures stuck.None? ==> DriverGraded(old(tasks), tasks, driver, v, |tasks|)
                              && forall i | 0 <= i < |tasks| && Predicted(tasks[i], driver) :: env.persists(i)
      ensures stuck.Some? ==> DriverGraded(old(tasks), tasks, driver, v, stuck.value + 1)
                              && stuck.value < |tasks| && Predicted(tasks[stuck.value], driver)
                              && !env.persists(stuck.value)
                              && forall i | 0 <= i < stuck.value && Predicted(tasks[i], driver) :: env.persists(i)
      ensures stuck.None? ==>
                (definite <==>
                 forall i | 0 <= i < |tasks| && Predicted(tasks[i], driver) :: Definite(v, tasks[i].instance))
    {
      stuck, definite := None, true;
      var i := 0;
      while i < |tasks|
        invariant 0 <= i <= |tasks|
        invariant DriverGraded(old(tasks), tasks, driver, v, i)
        invariant forall k | 0 <= k < i && Predicted(tasks[k], driver) :: env.persists(k)
        invariant definite <==> forall k | 0 <= k < i && Predicted(tasks[k], driver) :: Definite(v, tasks[k].instance)
      {
        if Predicted(tasks[i], driver) {
          definite := definite && Definite(v, tasks[i].instance);
          tasks := tasks[i := Grade(tasks[i], v)];
          if !env.persists(i) { return Some(i), definite; }
        }
        i := i + 1;
      }
    }

    /** The rebuild retry: whether it failed, and the verdicts to grade with. */
    method Retry(env: Env, driver: string, first: Verdicts, ghost before: seq<Task>) returns (failed: bool, v: Verdicts)
      requires Invoke(env.first(driver)) == Some(first) && SameKeys(before, tasks)
      ensures failed == RebuildFails(env, before, driver)
      ensures v == FinalVerdicts(env, before, driver)
    {
      failed, v := false, first;
      var needed := false;
      var i := 0;
      while i < |tasks|
        invariant 0 <= i <= |tasks|
        invariant needed <==>
                  exists k :: 0 <= k < i && Predicted(tasks[k], driver) && Ungradeable(first, tasks[k].instance)
      {
        if Predicted(tasks[i], driver) && Ungradeable(first, tasks[i].instance) { needed := true; }
        i := i + 1;
      }
      assert needed <==> NeedsRebuild(tasks, driver, first);
      if NeedsRebuild(before, driver, first) { RebuildSame(before, tasks, driver, first); }
      if needed {
        RebuildSame(tasks, before, driver, first);
        var again := if env.rebuildPredictions(driver) then Invoke(env.rebuild(driver)) else None;
        if again.None? { return true, v; }
        v := first + again.value;
      }
    }

    /** One driver, from its predictions to its last record. */
    method ScoreDriver(env: Env, driver: string, ghost before: seq<Task>, ghost ds: seq<string>, ghost d: nat)
      returns (f: Failure, definite: bool)
      requires Ascending(ds) && d < |ds| && driver == ds[d] && GradedTo(env, before, tasks, ds, d, 0)
      modifies this`tasks
      ensures Ends(env, before, driver, f)
      ensures f == Nil ==> GradedTo(env, before, tasks, ds, d + 1, 0)
      ensures f == Nil ==> (definite <==> DriverDefinite(env, before, driver))
      ensures f != Nil ==> GradedTo(env, before, tasks, ds, d, Upto(before, f))
    {
      definite := false;
      if !env.predictions(driver) { return NotInvoked(driver), false; }
      var first := Invoke(env.first(driver));
      if first.None? { return NotInvoked(driver), false; }
      GradedKeys(env, before, tasks, ds, d, 0);
      var rebuildFailed, v := Retry(env, driver, first.value, before);
      ghost var mid := tasks;
      var stuck;
      stuck, definite := GradeDriver(env, driver, v);
      GradesNext(env, before, mid, tasks, ds, d, if stuck.Some? then stuck.value + 1 else |tasks|);
      GradedKeys(env, before, tasks, ds, d, if stuck.Some? then stuck.value + 1 else |tasks|);
      f := if stuck.Some? then NotPersisted(stuck.value) else if rebuildFailed then NotRebuilt(driver) else Nil;
      DriverEnds(env, before, driver, stuck, rebuildFailed, f);
      if f == Nil { PassesOn(env, before, tasks, ds, d); }
    }

    /** All drivers, in order, until one stops the scoring. */
    method ScoreDrivers(env: Env, ds: seq<string>) returns (f: Failure, stop: nat)
      requires DriversOf(tasks, |tasks|, ds) && env.workspace && env.available
      modifies this`tasks
      ensures Scored(env, old(tasks), tasks, StatusOf(env, f), f, ds, stop)
    {
      ghost var before := tasks;
      var definite := true;
      stop := 0;
      while stop < |ds|
        invariant 0 <= stop <= |ds|
        invariant GradedTo(env, before, tasks, ds, stop, 0)
        invariant forall d | 0 <= d < stop :: Ends(env, before, ds[d], Nil)
        invariant definite <==> AllDefinite(env, before, ds, stop)
      {
        DefiniteNext(env, before, ds, stop);
        var ok;
        f, ok := ScoreDriver(env, ds[stop], before, ds, stop);
        if f != Nil {
          NotTwice(env, before, ds[stop], f);
          return;
        }
        definite := definite && ok;
        stop := stop + 1;
      }
      f := if definite && !env.cancelledAtEnd then Nil else NotGraded;
    }

    /** The whole scoring, with the status its deferred part settles on. */
    method Score(env: Env) returns (f: Failure, ghost ds: seq<string>, ghost stop: nat)
      modifies this
      ensures Scored(env, old(tasks), tasks, status, f, ds, stop)
      ensures status != Running && (f == Nil <==> status == Completed)
    {
      status := Running;
      var drivers := Drivers(tasks);
      ds, stop := drivers, 0;
      if !env.workspace {
        f := NotAllocated;
      } else if !env.available {
        status := Unavailable;
        f := NotAvailable;
      } else {
        var reached;
        f, reached := ScoreDrivers(env, drivers);
        stop := reached;
      }
      if f == Nil {
        status := Completed;
      } else if env.cancelledAtReturn {
        status := Cancelled;
      } else if status != Unavailable {
        status := Failed;
      }
    }
  }

  /** A driver that stops the scoring does not also let it go on. */
  lemma NotTwice(env: Env, tasks: seq<Task>, driver: string, f: Failure)
    requires Ends(env, tasks, driver, f) && f != Nil
    ensures !Ends(env, tasks, driver, Nil)
  {
  }

  // ---------------------------------------------------------------- path tokens

  predicate SafeChar(c: char) {
    'a' <= c <= 'z' || 'A' <= c <= 'Z' || '0' <= c <= '9' || c == '-' || c == '_'
  }

  predicate Canonical(name: string) {
    name != "" && !HasPrefix(name, "id-") && forall i | 0 <= i < |name| :: SafeChar(name[i])
  }

  function Token(name: string, hash: string -> string): string {
    if Canonical(name) then name else "id-" + hash(name)
  }

  method ScorePathToken(name: string, hash: string -> string) returns (token: string)
    ensures token == Token(name, hash)
  {
    if name != "" && !HasPrefix(name, "id-") {
      var safe := true;
      var i := 0;
      while i < |name|
        invariant 0 <= i <= |name| && safe
        invariant forall k | 0 <= k < i :: SafeChar(name[k])
      {
        if !SafeChar(name[i]) {
          safe := false;
          break;
        }
        i := i + 1;
      }
      if safe { return name; }
    }
    token := "id-" + hash(name);
  }

  /** Two drivers share an evaluator path only through a hash collision of names that both need hashing. */
  lemma TokensCollide(a: string, b: string, hash: string -> string)
    requires a != b
    ensures Token(a, hash) == Token(b, hash) <==> !Canonical(a) && !Canonical(b) && hash(a) == hash(b)
  {
    var x, y := "id-" + hash(a), "id-" + hash(b);
    assert x[..3] == "id-" && y[..3] == "id-";
    assert x[3..] == hash(a) && y[3..] == hash(b);
  }
}
